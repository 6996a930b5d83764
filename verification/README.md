# Verification of chonkline

chonkline is an IRC server that keeps all its state behind one lock. This project models the parts of
it that are hard to get right and proves what the server promises about them, for every input, every
run and every reachable state.

* **The server state machine** (`ServerModel`): connections, nicks, channels, reclaim markers, pings and
  the lines handed to clients, as one function per command, timer tick and link event. `ServerInvariant`
  states what every step keeps. `ServerRegistration`, `ServerDepartures`, `ServerChannels` and
  `ServerSteps` prove it kept. `ServerRuns`, `ServerNicks`, `ServerMembers` and `ServerExchange` draw the
  results over whole runs, of one server or of two. `ServerEffects`, `ServerReclaim`, `ServerOrigins` and
  `ServerTimes` say what each step brings about and for what reason. `Server` is the same machine as an
  object whose methods change its maps in place, each proved to reach the model's state.
* **Framing and admission** (`Framing`, `Intake`, `Limits`, `Glob`, `Bans`): the byte reader up to the
  commands it yields, the per-source limits, and the mask matcher behind bans and kills.
* **The network** (`Network`, `Link`, `LinkSessions`): the spanning tree, minted identities, the nick
  index, and the link protocol against its own printers.
* **Texts and codecs** (`Text`, `Names`, `Tags`, `Proto`, `Civil`, `Base64`): parsing of section 2.3.1 of
  RFC 1459, IRCv3 tag escaping, civil dates, and base64 (section 4 of RFC 4648).
* **Accounts and replies** (`AccountFile`, `Accounts`, `Credentials`, `AccountService`, `Reply`): the account
  store with its file and rollback, who gets which credentials, and the capture and labelling of replies.

`dafny verify dfyconfig.toml` checks everything.

## How the source is modelled

* A wall clock, a random salt, a derived key, the outcome of a save, whether a queue accepts a line, the
  channel registry and the lossy decoding of bytes are parameters. Key derivation is an arbitrary function.
* Hash maps are maps. Where the source iterates one, the order is a parameter, or an arbitrary choice in
  the imperative version, so every result holds for every order.
* The log of delivered lines is a multiset: who was sent what, and how often. It records the lines the
  results speak about (quit, welcome, nick in use, ping, challenge, rename).
* `where` in `State` is an auxiliary index from a registered connection to its nick key. The source finds
  the record by scanning.
* 32-bit and 64-bit wrap-around is written out where it matters: the base64 accumulator, the UID counter,
  the batch counter, parsed numbers. Line lengths are counted in UTF-8 bytes.

## Results that are not what the comments suggest

* `src/bans.rs:41-44`: the literal comparison comes before the star, so the mask `*` does not match the
  text `*a`. The two conditions under which the matcher is right are both exact.
* `src/state.rs:257-275`: a user name may hold a star, and a channel ban is matched against it. The ban
  `*!*@h` misses the user `*x` at that host. Bans are exact for a connection if and only if its user name
  is free of stars.
* `src/ops.rs:526-541`: a segment of 511 bytes that ends in CR-LF is kept when the read ends between CR
  and LF and dropped otherwise. It is the only case that depends on chunking,
  and since no line over 510 bytes parses it never reaches a command.
* `src/limits.rs:220`: pruning on release always uses 60 s, so the admission bound holds for all runs
  exactly when the configured window is at most that.
* `src/network.rs:233-236`: adding a known UUID again under another nick leaves a stale index entry
  (`ReintroductionLeavesStale`). The exact condition is `AddUserKeepsIndexIff`.
* `src/accounts.rs:86-109`: a file with two lines for one account can leave a fingerprint indexed under an
  account that does not list it. The exact condition is `LoadIndexIff`.
* `src/cmds.rs:1098-1107`: a nick nobody holds is refused before registration when the nick leads, by a rename
  of the last two minutes, to a live connection (`RenamedAwayRefused`). So a nick is to be had exactly when
  nobody is found under it, not when nobody holds it (`NickSettles`).
* `src/cmds.rs:1200-1210`: for the same reason a pairing held back for a nick does not get it from the eviction
  of its holder while the nick leads by a recent rename to another marked connection (`HeldUpByRename`).
  `ReclaimSettles` has the exact condition.
* `src/proto.rs:97-98` says a trailing backslash is treated as the message-tags specification asks. The
  code keeps it, where the specification drops it (`LoneBackslash`). The two agree on a value exactly when
  no backslash is left dangling at its end (`UnescapeIsSpecIff`).
* `src/cmds.rs:3625-3632`: a mode change from a younger channel is to be ignored. It is, exactly when our own
  timestamp is not zero, and a channel introduced with an unreadable timestamp has zero
  (`YoungerModeIgnoredIff`, `ZeroStampHeedsAll`).
* `src/proto.rs:82-94`: tabs and form feeds pass through escaping unchanged, and the parser ends the tags
  at them.

## Model

| member | source | states |
|---|---|---|
| `Names.KeysEqualIffSameName` | src/state.rs:27-40 | two names have the same key if and only if they are the same letter for letter up to case and the four rfc1459 pairs |
| `Names.NormNickIdempotent` | src/state.rs:27-40 | folding a key again changes nothing, so raw names and keys may be mixed |
| `Glob.GlobMatch` | src/bans.rs:35-60 | the four-index loop terminates and returns exactly the recursive scan `Scans`, in which a star that faces a literal star is taken as that character |
| `Glob.LastStarSuffices` | src/bans.rs:44-51 | once a later star is reached, retrying any earlier star adds no match: only the last one need be remembered |
| `Glob.ReachesNoEarlier` | src/bans.rs:48-51 | a match that starts a segment later still reaches the rest of the mask no earlier than the greedy attempt did |
| `Glob.ScansSound` | src/bans.rs:35-60 | for all masks and texts, a reported match is a match under the meaning of `*` and `?` |
| `Glob.ScansComplete` | src/bans.rs:35-60 | every match is found when the text, or the mask, holds no star |
| `Glob.RightForEveryMaskIffStarFreeText` | src/bans.rs:41-44 | the result is right for every mask if and only if the text holds no star |
| `Glob.RightForEveryTextIffStarFreeMask` | src/bans.rs:41-44 | the result is right for every text if and only if the mask holds no star |
| `Bans.BansExactIffStarFreeUser` | src/state.rs:257-275 | for a connection whose nick and host hold no star, every ban on the whole identity does what its mask means if and only if the user name holds no star |
| `Bans.StarUserPassesHostBan` | src/state.rs:257-275 | the ban `*!*@h` means to catch the user `*x` at that host and does not |
| `Bans.MatchesWhatItMeans` | src/state.rs:257-275 | for an identity without stars a mask, on the whole or on the nick alone, catches exactly what it means |
| `Bans.BarredIff` | src/cmds.rs:1552-1612 | such a connection is let in exactly when it is invited or excused where that is needed, has an account where that is needed, is not caught by a ban without an exception, and gives the key |
| `Bans.KillPatternsExact` | src/cmds.rs:345-351 | no valid nick holds a star, so a pattern KILL selects exactly what its pattern means |
| `Framing.FramingIndependent` | src/ops.rs:514-573 | for every split of a stream into reads, with no unterminated run over 64 KiB, the segments of at most 510 bytes handed on are those of splitting the whole stream at CR and LF |
| `Framing.FramingIndependentIff` | src/ops.rs:514-573 | all non-empty lines handed on are the same however the stream is chunked if and only if no segment of 511 bytes ends in CR-LF |
| `Framing.OverlongDepends` | src/ops.rs:526-541 | a 511-byte segment ending in CR-LF is dropped or kept depending on where the read ends |
| `Intake.CommandsIndependent` | src/ops.rs:592-615 | for every split of a stream into reads, with no unterminated run over 64 KiB and a decoding never shorter in UTF-8 than the bytes it decodes, the commands parsed are those of splitting the whole stream at CR and LF: the one segment that depends on chunking never parses |
| `Framing.FindTerminator` | src/ops.rs:145-152 | the scan returns the first CR or LF, or the length |
| `Framing.LineReader.Read` | src/ops.rs:514-573 | draining the buffer in nested loops after a read gives exactly the reader state `Feed` of the old one |
| `Limits.SlotsConserved` | src/limits.rs:177-228 | over every run of matched releases the total equals the outstanding non-exempt slots, each source's count equals its own, and a non-zero ceiling or clone cap is never exceeded |
| `Limits.ReleaseExact` | src/limits.rs:214-219 | under the same runs neither saturating subtraction ever saturates |
| `Limits.AdmissionWindow` | src/limits.rs:192-206 | with time non-decreasing and a window of at most 60 s, no window of that length holds more than the permitted admissions of one source, despite pruning and entry removal |
| `Limits.WindowBoundIff` | src/limits.rs:214-227 | that bound holds for every run, and likewise for every run of matched releases, if and only if the window is at most the 60 s kept on release |
| `Limits.MessageBudget` | src/limits.rs:235-248 | while a source keeps a connection open, no message window holds more than the permitted messages of it |
| `Limits.ArrivalDeserved` | src/limits.rs:177-206 | after every such run an arrival is refused exactly when all slots are held, its source has all the connections it may have, or its source has used up its admissions for the window, in that order of reasons; an exempt one never |
| `Limits.MessageDeserved` | src/limits.rs:235-248 | while a source that started without history stays connected, a message is turned down exactly when the budget of the window is used up, and ends the connection exactly when that has then happened as often as is tolerated |
| `Limits.Retain` | src/limits.rs:193 | the in-place filter keeps exactly the stamps inside the window, in order |
| `Limits.SourceTable.Admit` | src/limits.rs:177-206 | the table and verdict after admission are those of `TryAdmit` on the old table |
| `Limits.SourceTable.Free` | src/limits.rs:211-228 | the table after a release is `Release` of the old one |
| `Limits.SourceTable.Charge` | src/limits.rs:235-248 | the table and outcome after a message are those of `ChargeMessage` |
| `Network.UidsDistinct` | src/network.rs:101-112 | two counter values give the same UID if and only if they agree modulo 36^6 |
| `Network.UidWellFormed` | src/network.rs:26-35 | a valid SID followed by any minted UID is a valid UUID |
| `Network.MintedIdentitiesDistinct` | src/network.rs:101-139 | over any session asking for at most 36^6 identities no two connections share a UUID, exactly those asked for have one, and all are well formed |
| `Network.AddUserKeepsIndexIff` | src/network.rs:233-236 | adding a user keeps every index entry pointing at a user with that key unless it re-adds a known UUID under another key while the old entry is still its own |
| `Network.ReintroductionLeavesStale` | src/network.rs:233-236 | adding any user and then the same UUID under any other key leaves an index entry that is wrong |
| `Network.IndexHoldsOverRuns` | src/network.rs:233-275 | after any run of adds with fresh UUIDs, renames, removals and splits every nick index entry names a live user with exactly that key, nick collisions included |
| `Network.LastTakerFound` | src/network.rs:233-275 | in every such run a key leads to the last user to take it, by introduction or rename, for as long as that user is there and has it |
| `Network.SplitTakesBehind` | src/network.rs:201-229 | a split takes exactly the servers that are in every closed set around the SID, and their users; everybody else stays under the same nick |
| `Network.SubtreeIsLeast` | src/network.rs:175-217 | what a split takes is the least set of servers that contains the SID and is closed under reached-via, self and cyclic links included |
| `Network.RemoveUserIsWithout` | src/network.rs:250-259 | removing users one at a time, in any order, is removing them all at once |
| `Network.Table.NextUid` | src/network.rs:101-112 | the digit loop writes the base-36 numeral of the counter and steps the 64-bit counter |
| `Network.Table.UuidForLocal` | src/network.rs:114-122 | a connection keeps the identity it was first given; otherwise one is minted |
| `Network.Table.LocalUuidOwner` | src/network.rs:137-139 | inverts the identity table: with distinct identities the owner found is the only one |
| `Network.Table.Introduce` | src/network.rs:233-236 | the table becomes `AddUser` of the old one |
| `Network.Table.Remove` | src/network.rs:250-259 | the table becomes `RemoveUser` of the old one and the removed record is returned |
| `Network.Table.Rename` | src/network.rs:261-275 | the table becomes `RenameUser` of the old one, and a false result means the user was unknown |
| `Network.Table.Behind` | src/network.rs:176-188 | the growing worklist ends, also on cyclic links, with exactly the subtree |
| `Network.Table.UsersOf` | src/network.rs:192-196 | lists once each exactly the users owned by the given servers |
| `Network.Table.CollectSubtreeUsers` | src/network.rs:175-197 | removes exactly the subtree's servers and lists exactly the users they own |
| `Network.Table.SplitServer` | src/network.rs:201-229 | removes exactly the subtree and its users and nothing else, and lists them once each |
| `Network.Table.SplitServerDetailed` | src/network.rs:169-172 | removes the same things as the plain split and returns the same users as records |
| `ServerSteps.StepMoves` | src/cmds.rs:1032-1263 | every event keeps the whole invariant and moves connections, markers, quit lines, verification, channel timestamps and channel modes only in the ways listed by `Moves` |
| `ServerRuns.InvHolds` | src/state.rs:989-1145 | in every reachable state each connection is in exactly one table under its own key with at most ten channels, membership is mirrored, markers have pings, welcomes are paid or owed and no live connection has been announced as gone |
| `ServerRuns.MembershipMirrored` | src/cmds.rs:1469-1642 | a channel is in a registered user's set if and only if the user is in its members, every member is registered, and nobody exceeds ten channels |
| `ServerRuns.OneHolder` | src/state.rs:989-1048 | a nick key names one connection, filed under its own key and in no other table |
| `ServerNicks.NickChangesOnlyAsked` | src/ops.rs:988-1000 | over every run a registered connection that survives a step keeps its nick, unless the step is its own NICK for the nick it now holds, or a reclaim tick that takes a marker which held back exactly that rename since an earlier NICK of its own contested the marker's holder |
| `ServerNicks.EveryNickAsked` | src/cmds.rs:1032-1263 | in every reachable state each registered connection holds a nick it asked for itself by an earlier NICK, whether taken at once, paired with USER later, or held back by a marker |
| `ServerNicks.PendingAsked` | src/cmds.rs:1098-1112 | a nick waiting for USER or for verification was asked for by an earlier NICK of the same connection |
| `ServerRuns.HeldBackAsked` | src/cmds.rs:944-988 | over every run whatever a marker holds back, pairing or rename, was asked for by an earlier NICK of that very connection, which contested the marker's holder |
| `ServerNicks.StepNicks` | src/cmds.rs:1005-1112 | in one step a surviving connection keeps its nick unless it is the sender of this NICK for the nick it then holds, or the reclaim timer finds that rename stored in a marker it takes; one that registers takes a nick it was waiting for or one of those |
| `ServerEffects.NickSettles` | src/cmds.rs:1032-1112 | over every run what a NICK brings about is decided by its nick, the holder found for it and its sender: a malformed or reserved one moves nobody; a registered sender takes a free nick, with each channel peer told once, is held back by a marker if the holder seems gone, and is told once that the nick is in use otherwise; before registration the same, and a nick nobody is found under is taken at once, or recorded until the user name and the answer to the challenge are in |
| `ServerEffects.PairingSettles` | src/cmds.rs:1154-1263 | over every run a USER or PONG that completes a pairing registers its sender, under that nick and user name and with the welcome sent or withheld, if and only if the nick is free; otherwise it is told once that it is not; only while a holder found for the nick is being reclaimed does it wait |
| `ServerEffects.UserWaits` | src/cmds.rs:1123-1198 | a user name that does not complete the pairing is recorded, cut to ten characters, and the challenge is sent with the first complete pairing and not again |
| `ServerEffects.NewcomerRegisters` | src/cmds.rs:1154-1263 | with the challenge off, the first connection to send any valid NICK and USER is registered under them and welcomed once |
| `ServerEffects.RenamedAwayRefused` | src/cmds.rs:1098-1107 | a nick that a live connection has given up within the last two minutes is refused before registration, although nobody holds it |
| `ServerEffects.RenameFollowed` | src/state.rs:872-890 | for two minutes after a rename the old nick leads to whoever gave it up |
| `ServerEffects.OnlyRecentRenames` | src/state.rs:872-890 | a held nick leads to its holder, and one nobody holds or has given up recently leads nowhere |
| `ServerEffects.PongAnswers` | src/ops.rs:752-771 | a PONG clears its sender's ping and marker, and everyone the marker held back is told the nick is in use, exactly once per request |
| `ServerEffects.MarkedRegistered` | src/cmds.rs:944-988 | over every run only registered connections are marked |
| `ServerEffects.CapTakesEffect` | src/cmds.rs:4691-4769 | CAP starts and ends negotiation for its sender and changes nobody else's record |
| `ServerReclaim.ReclaimSettles` | src/ops.rs:977-1001 | over every run, when the timer takes a marker whose holder alone stands in the way of a nick all those held back ask for, the holder is gone and the nick goes to the first pairing with nothing missing, else to the first rename still possible, else to nobody; the other pairings are told, and nobody else moves |
| `ServerReclaim.TicksInTurn` | src/ops.rs:988-1000 | a tick that takes several markers takes them one after the other, each as if alone |
| `ServerReclaim.HeldUpByRename` | src/cmds.rs:1200-1210 | a state in which the eviction frees the nick and the one who waited for it still does not get it, since the nick leads by a recent rename to another marked connection |
| `ServerMembers.MembershipJustified` | src/cmds.rs:1552-1642 | over every run a connection enters a channel only by its own JOIN naming it, past the invite, account, ban and key checks, and while connected leaves only by its own PART naming it or by a KICK naming it from an operator of the channel or itself |
| `ServerMembers.StepSeats` | src/cmds.rs:2741-2821 | the same for one step of any event other than a new connection |
| `ServerMembers.JoinTakesEffect` | src/cmds.rs:1552-1642 | past every check and with room left, a JOIN does seat its sender |
| `ServerMembers.EntryChecked` | src/cmds.rs:1552-1642 | over every run whoever newly enters a channel that exists named it in a JOIN and, in the state before, met what it asks: invited or excused if it is invite-only, with an account if it is for accounts, excepted if banned, and with the key given at the same position if there is one; masks by their meaning, for identities without stars |
| `ServerMembers.EntryGranted` | src/cmds.rs:1469-1642 | and whoever is registered, names the channel, meets all that and has room for the channels named up to it is let in |
| `ServerMembers.KickTakesEffect` | src/cmds.rs:2741-2821 | over every run a KICK of a member by an operator of the channel, or of oneself, removes that member |
| `ServerMembers.EmptyChannelsGo` | src/state.rs:1130-1145 | over every run no channel without local and remote members is left by a step in which somebody departs, by a PART, or by the end of a MODE |
| `ServerMembers.PartTakesEffect` | src/cmds.rs:1797-1860 | after PART of any list its sender is in none of the channels named |
| `ServerRuns.DepartureToldOnce` | src/ops.rs:1099-1109 | a connection that is gone left in one step, and over the whole run each connection sharing a channel with it that was there to hear it has exactly one QUIT line and all others none, whatever QUIT, kill, eviction or EOF followed |
| `ServerRuns.SurvivorsTold` | src/state.rs:1259-1277 | of those still there after the step, exactly the channel peers were told |
| `ServerRuns.MarkerOrigin` | src/cmds.rs:944-988 | every reclaim marker was installed by an earlier NICK whose nick its holder held and which found the holder stale, with a deadline one grace period after it, and has stood unchanged since |
| `ServerRuns.ReclaimJustified` | src/ops.rs:977-1001 | a holder evicted by the reclaim timer held the nick asked for by a NICK at least a grace period earlier and looked stale then; the marker that NICK set has stood since, and no PONG of the holder has been processed since |
| `ServerRuns.TickEvictsExpired` | src/ops.rs:981-993 | the timer takes only markers whose deadline has passed, and the holder is gone afterwards |
| `ServerRuns.LiveSince` | src/ops.rs:876-890 | ids are never reused: a connection there now was there at every step since it was first seen |
| `ServerTimes.GoneIff` | src/ops.rs:1099-1109 | over every run a live connection is gone after a step exactly when the step is its own QUIT once registered or its end of stream, a KILL by an operator or an authorized GHOST whose nick leads to it, a purge that lists it, or a tick for which its marker, its registration window or its ping has run out |
| `ServerTimes.LivenessJustified` | src/ops.rs:1003-1047 | whom the liveness timer evicts was accepted longer ago than the registration window and is still unregistered, or was sent a ping longer ago than the eviction window that has been outstanding since, with no PONG of it processed |
| `ServerTimes.SilentArePinged` | src/ops.rs:1034-1046 | after the liveness timer every registered connection that has been silent too long has a ping outstanding, and no other has been pinged |
| `ServerTimes.LastHeard` | src/ops.rs:668-674 | over every run the stamp of a connection is the time of its last command or its arrival, and nothing has come from it since |
| `ServerTimes.ArrivedAt` | src/ops.rs:876-890 | and its age counts from the step that accepted it |
| `ServerTimes.PingOrigin` | src/ops.rs:1041-1046 | over every run an outstanding ping was really sent, in a step with the time recorded for it, and has stood since |
| `ServerTimes.ContestedSilent` | src/cmds.rs:926-938 | a holder whose nick was contested had left a ping unanswered, or had sent nothing for longer than the silence allowed |
| `ServerRegistration.PongKeeps` | src/ops.rs:752-771 | a processed PONG keeps the invariant and always leaves its sender without a marker |
| `ServerRegistration.BeginReclaimKeeps` | src/cmds.rs:944-988 | installing a marker keeps the invariant, comes with an outstanding ping, and never postpones an existing deadline |
| `ServerRegistration.NickKeeps` | src/cmds.rs:1032-1112 | NICK keeps the invariant and changes nothing but a nick, a pairing, or the marker of a stale holder, which is new and a full grace period ahead or gains only this request |
| `ServerRegistration.MaybeCompleteKeeps` | src/cmds.rs:1154-1263 | challenging, holding back, refusing and completing all keep the invariant, the markers and the pings |
| `ServerRegistration.RenameKeeps` | src/state.rs:1030-1048 | a rename to a free key keeps the tables, the memberships and everyone else's record |
| `ServerRegistration.CapKeeps` | src/cmds.rs:4691-4769 | CAP keeps the invariant in each of its forms |
| `ServerRuns.WelcomeOnce` | src/cmds.rs:1154-1263 | in every reachable state a registered connection has had the welcome once or is owed it while negotiating, never both, and others neither |
| `ServerRuns.CapEndPays` | src/cmds.rs:1016-1028 | after CAP END a registered connection has been welcomed exactly once and is owed nothing |
| `ServerRuns.VerifiedByPong` | src/ops.rs:752-763 | a verified connection sent a PONG after its challenge was queued |
| `ServerRuns.RegisteredAfterPong` | src/cmds.rs:1154-1263 | with the challenge on, nobody is registered without such a PONG |
| `ServerDepartures.LoseKeeps` | src/ops.rs:1099-1109 | one departure keeps the invariant, tells each channel peer once and leaves nothing of the connection behind |
| `ServerDepartures.LoseAllLeaves` | src/cmds.rs:467-475 | a batch of departures in any order removes exactly those named, and a departing peer hears only those that go before it |
| `ServerSteps.ResolveMarksLeaves` | src/ops.rs:977-1001 | the reclaim timer keeps the invariant and removes exactly the expired holders, in whatever order the table is walked |
| `ServerSteps.LivenessLeaves` | src/ops.rs:1003-1047 | the liveness timer keeps the invariant and removes exactly the late registrations and unanswered pings |
| `ServerSteps.EofLeaves` | src/ops.rs:856-871 | end of stream keeps the invariant, announces a registered connection once, and is silent for one already gone |
| `ServerChannels.JoinAllKeeps` | src/cmds.rs:1469-1642 | JOIN over any list enters both sides of each membership or neither, within the cap of ten, and changes no mode of an existing channel but to make its founder operator |
| `ServerChannels.PartKeeps` | src/cmds.rs:1797-1860 | PART leaves both sides and drops only channels empty here and elsewhere |
| `ServerChannels.KickKeeps` | src/cmds.rs:2741-2821 | KICK leaves both sides of the target's membership and keeps the invariant |
| `ServerChannels.AdoptKeeps` | src/cmds.rs:5249-5281 | an introduced channel that is new begins with the timestamp given, empty and without modes; of a known one the older timestamp wins, and modes are wiped exactly when ours was younger; no other channel and no local membership moves, and the invariant is kept |
| `ServerRuns.TimestampIsMinimum` | src/cmds.rs:5249-5281 | while a channel has a local or remote member its timestamp never rises and is the least of its initial value and everything introduced since, in any order of arrival |
| `ServerRuns.ModesWipedIffOlder` | src/cmds.rs:5255-5264 | in every step of every run a channel that stays has its modes wiped exactly when its timestamp drops, by an introduction; otherwise they change only by an edit that is heeded, by a founder who joins, or by the privileges of those who left |
| `ServerRuns.SettingsFollowTimestamp` | src/cmds.rs:5249-5281 | over any stretch with members and no edit that is heeded, a channel's settings are wiped if and only if its timestamp has dropped, and are otherwise unchanged |
| `ServerOrigins.ChannelBegins` | src/cmds.rs:5249-5281 | over every run a channel begins in one of two ways: introduced, with the timestamp given, no modes and no local member; or by a JOIN naming it, with the clock as timestamp, its creator as only member, and no modes but the creator as operator unless it is registered to somebody else |
| `ServerOrigins.IntroductionTakesEffect` | src/cmds.rs:5249-5281 | over every run an introduced channel is there afterwards, new or with the older timestamp, no other channel moves, and its remote members are the old ones and exactly the listed users that are known |
| `ServerOrigins.TimestampFromTheStart` | src/cmds.rs:5249-5281 | from the step that creates a channel on, while somebody is in it, its timestamp is the least it has been given since, the first one included |
| `ServerOrigins.EntryRecorded` | src/cmds.rs:1617-1642 | a JOIN leaves a channel as it was, or adds its sender, uses up its invitation and makes it operator if it is the founder, and changes nothing else of it |
| `ServerRuns.YoungerModeIgnoredIff` | src/cmds.rs:3617-3632 | a remote mode change with a younger timestamp changes nothing, whatever it sets, if and only if our own timestamp is not zero |
| `ServerRuns.ZeroStampHeedsAll` | src/cmds.rs:3617-3632 | the failing family: a channel introduced with timestamp zero takes the modes of any later change, however young |
| `ServerExchange.ExchangeConverges` | src/cmds.rs:5249-5281 | two servers that each tell the other timestamps they have held, at least once, in any number, order and interleaving with everything else, both end on the older of the two they started with |
| `Server.ServerState.FindById` | src/state.rs:969-975 | finds the record of a live connection in whichever table holds it |
| `Server.ServerState.Lookup` | src/state.rs:872-890 | the loop follows at most eight recent renames and finds the model's holder |
| `Server.ServerState.ChannelPeers` | src/state.rs:1259-1277 | collects exactly the other members of the connection's channels |
| `Server.ServerState.Register` | src/state.rs:989-1020 | moves the record between tables as `Register` does, or leaves everything when the nick is held |
| `Server.ServerState.ApplyRename` | src/state.rs:1030-1064 | refiles the record and records the rename as the model does |
| `Server.ServerState.Evict` | src/state.rs:1099-1112 | removes the connection from whichever table holds it |
| `Server.ServerState.EjectUser` | src/state.rs:1116-1128 | removes the connection from every channel's members, operators and voices |
| `Server.ServerState.DropEmptyChannels` | src/state.rs:1130-1145 | drops exactly the channels with no local and no remote member |
| `Server.ServerState.AnnounceLossAndEvict` | src/ops.rs:1099-1109 | the new state is `LoseAndEvict` of the old one |
| `Server.ServerState.HandleQuit` | src/cmds.rs:191-218 | QUIT departs a registered connection and ignores others |
| `Server.ServerState.CleanupOnEof` | src/ops.rs:856-871 | end of stream gives the model's cleanup |
| `Server.ServerState.ParkUnregistered` | src/ops.rs:876-890 | a new connection gets one fresh unregistered record |
| `Server.ServerState.MaybeComplete` | src/cmds.rs:1154-1263 | the new state is the model's, branch by branch |
| `Server.ServerState.BeginReclaim` | src/cmds.rs:944-988 | pings the holder unless one is outstanding and installs or extends its marker as the model does |
| `Server.ServerState.HandleNick` | src/cmds.rs:1032-1112 | the new state is the model's for every nick, valid or not |
| `Server.ServerState.HandleUser` | src/cmds.rs:1123-1149 | the new state is the model's, with overlong user names cut |
| `Server.ServerState.HandleCap` | src/cmds.rs:4691-4769 | the new state is the model's for each subcommand |
| `Server.ServerState.HandlePong` | src/ops.rs:752-771 | the new state is the model's, with every held-back requester refused |
| `Server.ServerState.FinishDeferredRename` | src/cmds.rs:1005-1011 | applied only to a registered connection and a free valid nick |
| `Server.ServerState.ReclaimTick` | src/ops.rs:977-1001 | walks the expired markers once each in some order and ends in the model's state for that order |
| `Server.ServerState.LivenessTick` | src/ops.rs:1003-1047 | evicts the late ones in some order, then pings the silent, as the model does |
| `Server.ServerState.PingSilent` | src/ops.rs:1034-1046 | the loop over the silent connections pings exactly the registered ones without an outstanding ping |
| `Server.ServerState.HandleJoin` | src/cmds.rs:1469-1642 | splits the list, pairs names with keys by position and ends in the model's joins, with a registered channel's creator made operator only as its founder |
| `Server.ServerState.HandlePart` | src/cmds.rs:1797-1860 | splits the list, ends in the model's parts and drops empty channels at the end |
| `Server.ServerState.HandleKick` | src/cmds.rs:2741-2821 | the new state is the model's for every caller and target |
| `Server.ServerState.AdoptRemoteChannel` | src/cmds.rs:5249-5281 | enters the remote members and applies the timestamp rule as the model does |
| `Server.ServerState.ApplyRemoteMode` | src/cmds.rs:3617-3632 | the new state is the model's, with an invalid or unknown channel and a younger timestamp left alone |
| `Civil.FromEpochCorrect` | src/proto.rs:64-79 | every timestamp gives a real Gregorian date and time of day, leap years respected, that stands for exactly that second |
| `Civil.ToEpochCorrect` | src/proto.rs:64-79 | every date and time from 1970 on comes back from its own timestamp |
| `Civil.EpochDayIs` | src/proto.rs:64-79 | counting days year by year, 1 January 1970 is day 719528, the origin both conversions use |
| `Civil.CivilDayCorrect` | src/proto.rs:64-79 | the day arithmetic agrees with counting days year by year and month by month |
| `Base64.RoundTrip` | src/crypto.rs:175-226 | decoding an encoding gives the octets back, for every octet sequence |
| `Base64.BytesOut` | src/crypto.rs:211-226 | for every accumulator, the octets read back depend only on the symbols still pending, so the bits lost in shifting never matter |
| `Base64.DecodesFrom` | src/crypto.rs:211-226 | the same from any accumulator left by earlier groups |
| `Base64.EncodeEncoded` | src/crypto.rs:175-198 | encoded text holds only alphabet symbols and padding |
| `Base64.DecodesIff` | src/crypto.rs:201-226 | a text decodes exactly when it holds nothing but alphabet symbols, padding and white space, and then to six bits a symbol |
| `Base64.EncodeLoop` | src/crypto.rs:175-198 | the chunk loop produces `Encode` |
| `Base64.DecodeLoop` | src/crypto.rs:211-226 | the accumulator loop produces `Decode`, refusals included |
| `Tags.EscapeRoundTrip` | src/proto.rs:82-116 | unescaping gives back every escaped value |
| `Tags.EscapesAreCodes` | src/proto.rs:82-94 | the five characters with a code in the message-tags specification are written as that code, and every other as itself |
| `Tags.DanglingKept` | src/proto.rs:97-117 | unescaping gives what the message-tags specification asks for, followed by a backslash when the value ends in one that escapes nothing |
| `Tags.UnescapeIsSpecIff` | src/proto.rs:97-117 | unescaping agrees with the specification if and only if the value does not end in such a backslash |
| `Tags.LoneBackslash` | src/proto.rs:97-117 | the value of one backslash stays as it is, where the specification drops it |
| `Tags.EscapeNeverDangles` | src/proto.rs:82-117 | an escaped value never ends in such a backslash, so a reader that follows the specification gets every value back too |
| `Tags.EscapeSafe` | src/proto.rs:82-94 | an escaped value holds nothing that ends a tag, a tag list or a line |
| `Tags.FirstTag` | src/proto.rs:119-128 | an escaped tag in front of a list parses as that key and value followed by the list |
| `Tags.EscapeLoop` | src/proto.rs:82-94 | the loop produces `Escape` |
| `Tags.UnescapeLoop` | src/proto.rs:99-117 | the loop produces `Unescape`, trailing backslash and unknown escapes included |
| `Proto.ParsePrinted` | src/proto.rs:248-324 | a printed prefix, name, middle tokens and trailing parameter parse back as exactly those |
| `Proto.ParseShape` | src/proto.rs:248-324 | every accepted line gives an upper-case alphabetic name, at most fifteen parameters, all but the last of them tokens, and a solid prefix |
| `Proto.ParseName` | src/proto.rs:265-295 | a prefixed line is refused or is a command of that name, whatever follows |
| `Proto.ReadParams` | src/proto.rs:290-312 | the character loop produces `Params` |
| `Link.UidRoundTrip` | src/link.rs:432-448 | a UID line of well-formed fields fed to a live session is one event carrying the same user, and changes nothing else |
| `Link.FjoinRoundTrip` | src/link.rs:459-478 | an FJOIN line of well-formed fields is one event with the same channel, timestamp, modes and whole member list |
| `Link.MembersRoundTrip` | src/link.rs:415-429 | a rendered member list, empty or not, parses back to itself |
| `Link.BurstRoundTrip` | src/link.rs:148-163 | a whole state dump reports exactly its users and channels, in order, then completes the burst and makes the link live |
| `Link.RelayRoundTrip` | src/link.rs:166-398 | a QUIT, NICK, IJOIN, PART, PRIVMSG, NOTICE, FMODE or FTOPIC line as this server prints it for a user, fed to a live session, is one event that says the same of that user |
| `Link.PingAnswered` | src/link.rs:400-407 | a PING as we send it draws exactly the PONG from the SID asked to the SID asking |
| `LinkSessions.IntroductionDecides` | src/link.rs:236-292 | a peer that introduces itself is registered, and introduced to in turn on a link it opened, if and only if it gives the password we expect; otherwise the link is dead |
| `LinkSessions.LinkEstablished` | src/link.rs:91-292 | two servers that expect each other's passwords, each fed exactly what the other queues, register each other, and fed each other's state dump both go live with each other's users and channels |
| `LinkSessions.DeadIsFinal` | src/link.rs:166-169 | a refused link stays refused and silent, whatever follows |
| `LinkSessions.IntroducedAtMostOnce` | src/link.rs:133-146 | over every run of inbound lines our own SERVER line is queued at most once |
| `LinkSessions.TrustedOnlyAuthenticated` | src/link.rs:236-292 | no link records a peer, bursts or goes live unless some line carried the expected password |
| `LinkSessions.ReadMembers` | src/link.rs:415-429 | the entry loop produces `ParseMembers` |
| `LinkSessions.LinkSession.constructor` | src/link.rs:91-102 | a new session is in capability negotiation with nothing sent |
| `LinkSessions.LinkSession.SendServerLine` | src/link.rs:133-146 | queues our introduction unless it has been sent |
| `LinkSessions.LinkSession.Greet` | src/link.rs:114-131 | queues the capability lines and, on a link we opened, our introduction |
| `LinkSessions.LinkSession.Burst` | src/link.rs:148-163 | queues the state dump once |
| `LinkSessions.LinkSession.OnServerLine` | src/link.rs:236-292 | session and events are those of `OnServer`, both refusals included |
| `LinkSessions.LinkSession.HandleLine` | src/link.rs:166-221 | session and events after a line are those of `Handle` on the old session |
| `AccountFile.Normalize` | src/accounts.rs:55-64 | an accepted fingerprint is 64 lower-case hexadecimal digits |
| `AccountFile.NormalizeStored` | src/accounts.rs:55-64 | the stored form is accepted unchanged |
| `AccountFile.NormalizesIff` | src/accounts.rs:55-64 | a fingerprint is read from exactly the texts that spell it, in either case and with colons and white space anywhere |
| `AccountFile.LineRoundTrip` | src/accounts.rs:294-320 | a written line reads back as the same account if and only if the name holds no tab |
| `AccountFile.FileRoundTrip` | src/accounts.rs:265-320 | a file of accounts whose names hold no tab or newline reads back as those accounts in order |
| `Accounts.IndexIsInverse` | src/accounts.rs:86-244 | from an empty store, in every reachable state the fingerprint index is exactly the inverse of the certificate lists, which are free of repeats and at most eight long; restarts are included when names hold no tab or newline |
| `Accounts.FailedAddRestores` | src/accounts.rs:213-220 | a failed save in enrolling leaves both maps exactly as before |
| `Accounts.FailedRemoveRestores` | src/accounts.rs:225-244 | a failed save in removing leaves both maps exactly as before, order of the list included |
| `Accounts.SavedLoads` | src/accounts.rs:86-109 | what a save writes, in any order of accounts, loads as the same accounts and index |
| `Accounts.RestartFindsLastSaved` | src/accounts.rs:86-291 | after every run, earlier restarts included, loading the file gives exactly the store as of the last successful save |
| `Accounts.CertChangesDurable` | src/accounts.rs:193-244 | in every reachable state a certificate change is either on disk or undone altogether |
| `Accounts.LoadIndexIff` | src/accounts.rs:86-109 | for every file whatsoever, the loaded index is exact if and only if, of several lines for one folded name, all but the last list only certificates that stand on an earlier line of the file |
| `Accounts.ReplacedCertLingers` | src/accounts.rs:86-109 | any two lines for one account, the first with a certificate, leave an index entry that no account lists |
| `Accounts.SetPasswordKeeps` | src/accounts.rs:155-174 | changing a password keeps the invariant, the index and every certificate list |
| `Accounts.CertNamesItsAccount` | src/accounts.rs:182-186 | in every reachable state, restarts included, a fingerprint identifies an account if and only if that account lists it |
| `Accounts.PasswordsVerify` | src/accounts.rs:247-256 | after every run an account answers, under any folding of its name, to the password last accepted for it, or after a restart to the one last saved |
| `Credentials.RegistrationDecided` | src/accounts.rs:121-149 | in every reachable state a name can be registered exactly when it is not empty, not a service's, not that of an account under any folding, and the password is not empty, with the refusal saying which; then exactly that account is added, without certificates, and otherwise neither store nor file changes |
| `Credentials.CredentialsKept` | src/accounts.rs:121-244 | over every run, restarts apart, an account that is there stays and keeps its name, keeps its salt, hash and rounds unless its own password is set, and keeps its certificates unless its own are changed; an account comes only by being registered |
| `Credentials.PasswordDecided` | src/accounts.rs:155-174 | a password is set exactly when it is not empty and the account exists under some folding; then only that account's salt, hash and rounds change |
| `Credentials.EnrolmentDecided` | src/accounts.rs:193-221 | a fingerprint is enrolled exactly when it is one, the account exists, no account lists it, fewer than eight are listed and the save succeeds, with the outcome saying which failed; it then comes last in the list, and otherwise nothing changes |
| `Credentials.RemovalDecided` | src/accounts.rs:225-244 | one is removed exactly when the account lists it and the save succeeds; the others keep their order, and otherwise nothing changes |
| `Credentials.OnlyItsPassword` | src/accounts.rs:247-256 | after every run an account answers to exactly those passwords from which its salt derives the same key as from the one last accepted, or after a restart last saved |
| `AccountService.ReadCerts` | src/accounts.rs:303-312 | the loop keeps the valid fingerprints, first occurrence of each, in order |
| `AccountService.AccountStore.constructor` | src/accounts.rs:86-109 | the maps hold `Load` of the text |
| `AccountService.AccountStore.Insert` | src/accounts.rs:91-103 | keeps the prints nobody holds yet and files the account |
| `AccountService.AccountStore.Write` | src/accounts.rs:265-291 | writes every account in the order visited, or keeps the old file |
| `AccountService.AccountStore.Register` | src/accounts.rs:121-149 | store, file and outcome are the model's, every refusal included |
| `AccountService.AccountStore.SetPassword` | src/accounts.rs:155-174 | store, file and outcome are the model's |
| `AccountService.AccountStore.AddCert` | src/accounts.rs:193-221 | store, file and outcome are the model's, with the two-step rollback |
| `AccountService.AccountStore.RemoveCert` | src/accounts.rs:225-244 | store, file and outcome are the model's, with the print put back at its place |
| `Reply.CaptureComplete` | src/cmds.rs:665-687 | the reply buffer holds each line delivered to the commanding client outside a bypass, once and in order, and every other accepted line went to its queue |
| `Reply.PlainReply` | src/cmds.rs:715-731 | without a label the client reads exactly the owed lines |
| `Reply.LabelledReply` | src/cmds.rs:715-790 | with a label and at least one owed line, the client unframes exactly the owed lines and finds its label first on the first message, on one message more than the lines carry themselves |
| `Reply.EmptyReply` | src/cmds.rs:715-762 | a labelled command that owes nothing is one labelled ACK, or nothing when the client messaged itself |
| `Reply.UnframeFramed` | src/cmds.rs:748-802 | a framed reply of at least one line unframes to exactly those lines |
| `Reply.LabelOnce` | src/cmds.rs:748-802 | framing puts the label on exactly one message, where it unescapes to the original value, and neither loses nor doubles a tag of the lines |
| `Reply.BatchWrapsAll` | src/cmds.rs:770-790 | a batch is opened by the first message and closed by the last, and every message between carries its tag ahead of the line's own |
| `Reply.TagsTagged` | src/cmds.rs:794-802 | putting a tag in front of a line adds exactly that tag, ahead of those already there |
| `Reply.UntagTagged` | src/cmds.rs:794-802 | taking the first tag off gives the line back, with or without tags of its own |
| `Reply.BatchRefsDistinct` | src/cmds.rs:733-742 | batch references are equal if and only if both client and count are |
| `Reply.ReferencesDistinctIff` | src/cmds.rs:715-742 | over any sequence of replies to one client the batch references never repeat if and only if there are fewer than 2^64 of them, where the counter stops |
| `Reply.LabelReadBack` | src/cmds.rs:689-708 | the label read from a command is the one its client escaped if and only if it holds neither tab nor form feed |
| `Reply.FrameReply` | src/cmds.rs:748-790 | the loop produces `Frame` |
| `Reply.ReplyBuffer.BeginReply` | src/cmds.rs:681-687 | starts an empty capture for the client |
| `Reply.ReplyBuffer.DeliverLine` | src/cmds.rs:665-675 | captures or queues a line as the model does |
| `Reply.ReplyBuffer.DeliverToSelf` | src/cmds.rs:3823-3830 | a message to oneself is queued beside the reply and noted |
| `Reply.ReplyBuffer.FinishReply` | src/cmds.rs:715-742 | text, cleared capture and batch counter are those of `Finish` |

## Left out

- Sockets, tasks, TLS, HTTP, environment, logging and the file system itself: foreign code. The TLS probe path that returns after admission without a release (`src/ops.rs:392-396`) is outside the matched runs of `Limits`.
- SHA-256, HMAC and PBKDF2: key derivation is an arbitrary function of password, salt, rounds and length.
- Reply texts and numerics, WHO, WHOIS, LIST, STATS, MOTD, TOPIC, message relay, services dialogues and operator notices: wide and shallow.
- MODE, INVITE and FMODE grammar, and a founder's login: an edit may set any modes and invites of a channel (`ChannelEdit`), a remote one that is heeded any modes (`RemoteMode`), and MODE ends with a sweep of empty channels (`Sweep`). That operators are members is not stated: a remote FMODE does not check it.
- Pattern KILL and KLINE: which connections they select is arbitrary (`Purge`). Only the departures themselves are modelled.
- Account, host and operator changes of a connection are one arbitrary profile update. Real names, away texts, SASL and certificate sessions are not kept.
- The order of lines in one connection's queue, and lines dropped because a queue is full: the log of the server machine says what was handed to the queues. Order within a reply is proved in `Reply`.
- Relays of local events to links, and announcements of remote joins, parts and quits to local users.
- The burst charge of the reader (`charge_burst`) and flood disconnection, beyond the message budget of `Limits`.
- Stores of bans and channel registrations (persistence, founders, expiry): the same shape as the account store with less in it.
- An account store without a path, where a save succeeds and writes nothing.
- UUIDs of nine bytes that are not ASCII: the byte slices of `valid_uuid` are modelled on characters.
- ServerReclaim.ReclaimSettles: is about a marker whose requests all ask for one nick, and takes the markers of a tick one at a time (`TicksInTurn`). With requests for several nicks each is settled in turn, but which of them are still possible then depends on those before.
- ServerMembers.EntryChecked: is about identities without stars. For others `MembershipJustified` says the same of the masks as the matcher reads them, and `BansExactIffStarFreeUser` where that differs from their meaning.
- Limits.MessageBudget: holds while the source keeps a connection open, because an entry without connections may be dropped along with its message history.
- Framing.FramingIndependent: assumes no unterminated run over 64 KiB, at which the source drops the connection.
- Intake.CommandsIndependent: assumes the same, and of the lossy decoding, which is a parameter, only that it never shortens its input.
- ServerExchange.ExchangeConverges: is about timestamps. Modes do not converge, since introduced modes are ignored.
- Accounts.IndexIsInverse: across restarts it needs names without tab and newline. A name with a newline can write a second line for another account, and `LoadIndexIff` says when that spoils the index.
- Topics, and so the topic a registered channel gets back when it is recreated.
