# Verification of the SMD daemon's state machines

SMD is a Python daemon for Linux desktops.  It is made of long-lived state machines that are driven by messages, timers
and the ends of processes, and of a few self-contained algorithms on texts and trees.  This project models those parts
in Dafny and proves what they keep, over every input and every run.

`dafny verify dfyconfig.toml` checks everything.

## How the model is built

Each source component is one module.  What an object of the source updates in place is a `class` here, with methods
spelled as in the source; each method is proved equal to a function on plain values (`View()` or `Now()` gives the value
of an object), and the theorems are lemmas about those functions, over sequences of operations of any length.

What the source cannot control is a parameter: the result of starting a process, whether it still lives, the clock, the
outcome of reading or writing a file, the answer of a virtual machine.  Handlers, timers and process callbacks are atomic
steps.  That is a choice of the model: in the source one thread handles messages, and another runs the timers, the
callbacks of processes and the ticks (`structs/dispatcher.py` 82-110 and 213-225).

| module | source | subject |
|---|---|---|
| `Text`, `Expand` | `util/file.py` | expansion of variables in texts |
| `ConfigDiff` | `config_diff.py` | parser and printer of browser preferences, and their merge |
| `Storage` | `structs/storage.py` | the nested configuration store |
| `Framing` | `structs/message.py` | messages on the wire |
| `WatchList` | `structs/dispatcher.py` | the list of watched processes |
| `Multi` | `modules/backup.py` | a list of commands run by polling |
| `Schedule` | `modules/backup.py` | full and incremental backups |
| `Queue` | `modules/backup.py` | plans waiting for a backup |
| `BackupJob` | `modules/backup.py` | one backup, as an automaton |
| `BackupServer` | `modules/backup.py` | the current job, the queue and the requests |
| `Locker`, `BackupLock` | `modules/locker.py` | locks against sleep, their timers, the sleep flags |
| `Vm`, `Hydra`, `Pages` | `modules/hydra.py` | virtual machines, their USB devices and huge pages |

## What the proofs found

Where a property that the source promises is not true of its code, the code is modelled as it is, a lemma shows a run or
an input on which it fails, and another one says exactly when it holds.

| what fails | shown by | holds exactly when |
|---|---|---|
| A backup that ends keeps its lock against sleep for ever when reading the command to run afterwards raises an exception; when starting that command raises one that is no OSError, as an empty command line may, the lock stays until the timeout. | `BackupJob.LockIsLost` | `BackupJob.LockIsGivenBack` |
| A backup whose upload is cut short by a stop without force, as on shutdown, counts as done. | `BackupJob.CutUploadIsDone` | `BackupJob.BecomesDoneWhen` |
| The end of a backup is announced more than once, or never. | `BackupJob.EndIsAnnouncedTwice` | `BackupJob.EndIsAnnounced`, `BackupJob.AnnouncedOnceWhen` |
| The late end of one backup stops the next and has a failure booked for it. | `BackupServer.LateFinalStopsTheNext` | `BackupServer.RunningEndsWhen` |
| A plan makes more incremental backups in a row than its cycle has. | `Schedule.GarbledSavesNeverFill` | `Schedule.InCycleExactlyWhen`, and run by run `Schedule.IncrementalExactlyWhen` |
| A list of commands reports success although not all could be started. | `Multi.MissingCommandReportsSuccess` | `Multi.SuccessMeansAllRan` |
| A plan that is asked for is not the one that is served. | `Queue.QueuedRequestWaits` | `Queue.RequestedIsServedWhen` |
| A date that cannot be read costs its plan the place in the queue and ends the search for the next plan. | `Queue.BadDateEndsTheSearch` | `Queue.NextIsTheFirst` |
| A pass over the watch list leaves more than half of the entries that had ended when it began. | `WatchList.LateEntryTakesTheTurn` | `WatchList.HalfExactlyWhen` |
| `get` with `set_non_exist` overwrites a `None`. | `Storage.NoneIsOverwritten` | `Storage.GetOrSetKeepsValues` |
| A USB device stays booked for a machine that is not registered any more. | `Hydra.FailedLaunchBreaksTheIndex` | `Hydra.AgreementKept` |
| After a tick a machine is registered that is done or has failed. | `Hydra.BringingUpLooksAtNoMachine` | `Hydra.TickLeavesTheLive` |
| A machine is over although its process lives. | `Vm.LateExitEndsTheNewMachine` | `Vm.AliveWhileItsProcessIs` |
| A forced stop leaves network interfaces. | `Vm.FailedLaunchLeaves` | `Vm.ForceStopClears` |
| The reserve file does not hold the sum of the reservations. | `Pages.PagesAreLost` | `Pages.ReleasedConserves`, `Pages.ShutdownConserves` |
| The machine does not hibernate although it was suspended long enough. | `Locker.RepeatTakesTheAlarmBack` | `Locker.ArmedAfter`, `Locker.HibernatesAfter` |

Three slips of the source that would end a run with an exception are read as what they evidently mean:
`self.server.warning` in `_step_keygen` is a call of the log (`modules/backup.py` 992 and 1000), a job without an upload
target has an invalid one (line 1041), and the next USB id is one more than the greatest id in use, not the greatest
device name (`modules/hydra.py` 1490).  Others are modelled as they are:

- `add_plans` on an empty list of plans returns something that its caller cannot unpack (`modules/backup.py` 404).
- `remove` on an empty queue answers False, which its caller takes for a plan (`modules/backup.py` 334 and 1963).
- `self._paused.wait()` returns at once, because it waits for a flag that is set, so that a job that is suspended
  between two steps goes on (`modules/backup.py` 1267).
- The start of a machine that is running and awake asks for `self._process`, which is not there
  (`modules/hydra.py` 842).
- `Multi.poll` catches only OSError, so that starting a later command that is an empty list, which raises an IndexError,
  leaves the pass over the watch list and ends its thread (`modules/backup.py` 487-492, `structs/dispatcher.py` 259).
- `getctime` in `_cleanup` may raise for a file that has just gone, which leaves an uploaded backup to its timeout
  (`modules/backup.py` 822).
- `setup_server` asks for the descriptor of a lid switch that could not be opened, which raises before the screen
  handler is called (`modules/locker.py` 1035).
- `Error` is another name of `OSError` (`modules/hydra.py` 125), so that all failed starts are handled alike.
- `if self._running:` in `_usb_clean` asks for the method and not for its result, so that the devices are always gone
  through (`modules/hydra.py` 535).

The dispatcher takes its newest message first (`structs/dispatcher.py` 102-103).  Statements about the order of messages
speak of the order in which they are forwarded.

## Model

| member | source | states |
|---|---|---|
| Expand.ExpandCustom | usr/lib/smd/lib/util/file.py:316-392 | for every text and environment the scanner, which re-slices its input and resets its index, ends and yields the expansion of the text, entries of `env` before those of the process |
| Expand.Scan | usr/lib/smd/lib/util/file.py:326-388 | one turn of the loop reads exactly the first token of what is unread, and the unread length falls although text and index are replaced |
| Expand.ScanDollar | usr/lib/smd/lib/util/file.py:352-385 | of `$$`, `${..}`, an unterminated `${` and a bare name exactly the one that stands there is read, and the unread length falls |
| Expand.ReadName | usr/lib/smd/lib/util/file.py:370-377 | a bare name is read to its last name character, and the scanner stands right behind it |
| Expand.TokensSpellText | usr/lib/smd/lib/util/file.py:316-392 | no character of a text is lost or read twice |
| Expand.FirstIsUnique | usr/lib/smd/lib/util/file.py:326-388 | a complete token that may stand before the rest of a text is the one the scanner reads there |
| Expand.TokenizeIsCanonical | usr/lib/smd/lib/util/file.py:326-388 | what is read is a sequence of complete tokens, each of which may precede the rest |
| Expand.CanonicalIsTokenized | usr/lib/smd/lib/util/file.py:326-388 | conversely every such sequence is what is read from the text it spells |
| Expand.UndefinedIsVerbatim | usr/lib/smd/lib/util/file.py:329-383 | when no variable that is named is defined, only doubled `$` and `%` change; quoted runs, unterminated tails and unknown names come back as written |
| Expand.OnlyNamedVariablesMatter | usr/lib/smd/lib/util/file.py:349-383 | variables that a text does not name have no influence on its expansion |
| Expand.PlainText | usr/lib/smd/lib/util/file.py:318-319 | the early return gives what the scan would give |
| Expand.BracedExpands | usr/lib/smd/lib/util/file.py:356-368 | `${name}` after a text without signs becomes the value of the name, or stays as written when it has none; what the value holds is not scanned again |
| Expand.PercentExpands | usr/lib/smd/lib/util/file.py:340-351 | so does `%name%` |
| Expand.BareExpands | usr/lib/smd/lib/util/file.py:369-385 | and `$name` with the longest name there is, which is empty when no name follows |
| Expand.DoubledExpands | usr/lib/smd/lib/util/file.py:337-355 | a doubled sign becomes one |
| Expand.QuotedStays | usr/lib/smd/lib/util/file.py:328-332 | nothing is expanded between single quotes, which stay |
| Expand.OpenStays | usr/lib/smd/lib/util/file.py:333-362 | nothing is expanded behind a quote, a percent sign or a brace that is not closed |
| Expand.InertStays | usr/lib/smd/lib/util/file.py:386-387 | text before the first sign comes out as it is |
| ConfigDiff.ReadPrefs | usr/lib/firefox/tools/config_diff.py:41-67 | the loop yields the preferences of the lines in order, or the first key that is repeated |
| ConfigDiff.EntryWhen | usr/lib/firefox/tools/config_diff.py:43-65 | any line is an entry if and only if it is no comment and has, in order, `pref("` not before column 4, a quote, a comma and `);`, with a name other than the marker; and then it yields the name, the value and the lock that stand there |
| ConfigDiff.SpelledWhen | usr/lib/firefox/tools/config_diff.py:48-48 | the keyword is found in any letter case |
| ConfigDiff.ReadExactly | usr/lib/firefox/tools/config_diff.py:41-67 | reading gives exactly the preferences that the lines hold, or, when two have the same name, the name that is repeated first |
| ConfigDiff.SkippedLinesDoNotMatter | usr/lib/firefox/tools/config_diff.py:43-47 | a comment, or any line that holds nothing, can be left out of a text |
| ConfigDiff.WritePrefs | usr/lib/firefox/tools/config_diff.py:70-92 | the file holds the default preferences, an empty line and the locked ones, with an empty line between groups |
| ConfigDiff.WriteSection | usr/lib/firefox/tools/config_diff.py:72-80 | all preferences of one kind in order, with an empty line exactly where the first part of the name changes |
| ConfigDiff.SectionIsSpaced | usr/lib/firefox/tools/config_diff.py:72-80 | a section is made of the lines of its kind in the order of the keys, with an empty line exactly between two of different groups |
| ConfigDiff.GroupIs | usr/lib/firefox/tools/config_diff.py:75-80 | the group of a name is what stands before its first dot, in lower case |
| ConfigDiff.LineColumns | usr/lib/firefox/tools/config_diff.py:77-79 | the characters of a printed line: the values of both kinds begin in column 102 unless a name is too long |
| ConfigDiff.PrintedLines | usr/lib/firefox/tools/config_diff.py:70-92 | the lines of the printed file: the default preferences, an empty line, and the locked ones |
| ConfigDiff.LineRoundTrip | usr/lib/firefox/tools/config_diff.py:46-65 | a printed line is read as the preference it was printed from |
| ConfigDiff.ParsedIsWellFormed | usr/lib/firefox/tools/config_diff.py:46-65 | whatever line is read, the key and value that result can be printed |
| ConfigDiff.PrintThenParse | usr/lib/firefox/tools/config_diff.py:41-92 | printing well-formed preferences in any order of keys and reading the text gives them back |
| ConfigDiff.ParseIsWellFormed | usr/lib/firefox/tools/config_diff.py:41-67 | every map that reading yields is well formed |
| ConfigDiff.RoundTripExactly | usr/lib/firefox/tools/config_diff.py:41-92 | the round trip holds if and only if the preferences are well formed |
| ConfigDiff.ParsePrintParse | usr/lib/firefox/tools/config_diff.py:41-92 | for any text without repeated keys, reading what was printed from it changes nothing |
| ConfigDiff.Merge | usr/lib/firefox/tools/config_diff.py:104-118 | every base entry is kept, exactly the missing ones are added, and exactly the differing ones reported |
| ConfigDiff.MergedFileReadsBack | usr/lib/firefox/tools/config_diff.py:100-120 | the tool's output read again is the merged map |
| Text.FindIsFirst | usr/lib/firefox/tools/config_diff.py:48-57 | `find` yields the first occurrence, and -1 only when there is none |
| Text.SplitUnlines | usr/lib/firefox/tools/config_diff.py:43-43 | splitting printed lines at line ends gives the lines |
| Text.SplitJoined | usr/lib/firefox/tools/config_diff.py:43-43 | a line end separates two texts |
| Text.FindWhen | usr/lib/firefox/tools/config_diff.py:48-57 | `find` yields a place if and only if it is the first occurrence |
| Storage.GetAfterSet | usr/lib/smd/lib/structs/storage.py:178-218 | a value that was set is what `get` returns, at every path |
| Storage.SetFrame | usr/lib/smd/lib/structs/storage.py:178-218 | `set` changes no path that is neither a prefix nor an extension of its own |
| Storage.SetExtension | usr/lib/smd/lib/structs/storage.py:178-218 | below its path, the store is the value that was set |
| Storage.SetPrefix | usr/lib/smd/lib/structs/storage.py:190-205 | above its path there are dictionaries that lead to the value |
| Storage.PresentIsLookup | usr/lib/smd/lib/structs/storage.py:178-213 | `get` gives the entry where there is one and the default elsewhere, and fails on the same paths as `set` |
| Storage.GetOrSetAgrees | usr/lib/smd/lib/structs/storage.py:205-211 | `get` with `set_non_exist` returns what `get` would, and later gets agree with it |
| Storage.GetOrSetIdempotent | usr/lib/smd/lib/structs/storage.py:205-211 | doing it twice is doing it once, whatever the second default |
| Storage.GetOrSetKeepsValues | usr/lib/smd/lib/structs/storage.py:190-211 | every entry of the store is what it was, but that, when the path is missing, a dictionary on the way to it, or a `None` in the place of one, gets the rest of the path |
| Storage.NoneIsOverwritten | usr/lib/smd/lib/structs/storage.py:199-201 | a `None` on the way is no value: it becomes a dictionary |
| Storage.RunsStayClean | usr/lib/smd/lib/structs/storage.py:102-123 | over every run of set, get and update no reserved name but `_ro` enters the store |
| Storage.ReceivedIsSent | usr/lib/smd/lib/structs/storage.py:109-118 | the payload of a message passes the receiver's filter unchanged, up to `_ro` |
| Storage.UpdatedEntry | usr/lib/smd/lib/structs/storage.py:109-118 | what `update` leaves under each name: the entry of the payload unless its name is reserved, the mark for `_`, and else what was there |
| Storage.RefusedWhen | usr/lib/smd/lib/structs/storage.py:120-235 | `set` and a creating `get` refuse a name exactly when it begins with an underscore or is a method of the store, but for an undotted one that is there |
| Storage.Dict.Put | usr/lib/smd/lib/structs/storage.py:189-213 | the walk over dictionaries in memory stores the value, a dictionary or not, and nothing else, and changes nothing when it fails |
| Storage.Dict.PutBelow | usr/lib/smd/lib/structs/storage.py:195-213 | what the walk does to a dictionary shows in the one above it under its key and nowhere else |
| Storage.Dict.Find | usr/lib/smd/lib/structs/storage.py:192-208 | the reading walk finds the entry or tells that there is none, without making dictionaries |
| Storage.Flex.SetName | usr/lib/smd/lib/structs/storage.py:120-123 | `set` by dotted name stores the value, or changes nothing and tells a reserved name from a value in the way |
| Storage.Flex.GetName | usr/lib/smd/lib/structs/storage.py:215-218 | `get` with `set_non_exist` returns the entry, or stores and returns the default, or changes nothing and fails |
| Storage.Flex.Update | usr/lib/smd/lib/structs/storage.py:109-118 | `update` from any dictionary drops reserved names and turns `_` into the read-only mark |
| Storage.Flex.UpdateEntry | usr/lib/smd/lib/structs/storage.py:112-118 | one turn of that loop |
| Framing.Message.Send | usr/lib/smd/lib/structs/message.py:219-232 | writes header, length and payload, or nothing when they do not fit |
| Framing.Message.Recv | usr/lib/smd/lib/structs/message.py:183-217 | consumes one message, or tells a clean end from a malformed one or a read that fell short |
| Framing.ReceiveAll | usr/lib/smd/lib/structs/message.py:183-217 | repeated receiving yields all messages of a stream and consumes every byte of a clean one |
| Framing.UnpackPack | usr/lib/smd/lib/structs/message.py:194-224 | the four bytes of a length give the length |
| Framing.WireFormat | usr/lib/smd/lib/structs/message.py:219-232 | a message on the wire is its header, its length with the highest byte first, and its payload |
| Framing.ReceivedAsSent | usr/lib/smd/lib/structs/message.py:183-232 | a message followed by anything arrives as sent and leaves the rest, if and only if its header is not 0 |
| Framing.ReceivedWhenReady | usr/lib/smd/lib/structs/message.py:183-232 | a sent message is received as sent if and only if its header is not 0 and neither read falls short, and is refused otherwise |
| Framing.CutMessageIsRefused | usr/lib/smd/lib/structs/message.py:186-207 | a message cut anywhere is never taken for a message |
| Framing.CutStream | usr/lib/smd/lib/structs/message.py:183-232 | from a stream cut anywhere exactly the whole messages before the cut arrive, and the end is clean exactly when the cut falls between two |
| Framing.StreamRoundTrip | usr/lib/smd/lib/structs/message.py:183-232 | any list of messages arrives in order with every byte consumed, if and only if no header is 0 |
| WatchList.DispatchExecuter.WatchProcess | usr/lib/smd/lib/structs/dispatcher.py:171-177 | a watched process is appended, so that a pass that is going on still reaches it |
| WatchList.DispatchExecuter.CheckEntries | usr/lib/smd/lib/structs/dispatcher.py:251-279 | the loop that removes from the list it goes through leaves and calls what the pass function says, whenever processes end and whatever callbacks append; a poll that raises ends the pass, which leaves and calls what a pass does that hears of no end from that turn on |
| WatchList.NothingIsLost | usr/lib/smd/lib/structs/dispatcher.py:251-279 | what fired and what remains is, counted with multiplicity, what was there and what was appended |
| WatchList.OnlyTheEndedFire | usr/lib/smd/lib/structs/dispatcher.py:255-270 | each entry that fires had ended at its own turn, when the pass looked at it; turns rise and lie within the list |
| WatchList.AtLeastHalfFire | usr/lib/smd/lib/structs/dispatcher.py:255-270 | a pass takes off at least half, rounded up, as many entries as had ended when it began |
| WatchList.LateEntryTakesTheTurn | usr/lib/smd/lib/structs/dispatcher.py:255-270 | an entry that ends at any turn k of a pass can take the turn of one that had ended before |
| WatchList.PunctualHalf | usr/lib/smd/lib/structs/dispatcher.py:255-270 | when no process ends during the pass, those taken off are themselves at least half of those that had ended |
| WatchList.HalfExactlyWhen | usr/lib/smd/lib/structs/dispatcher.py:255-270 | a course of events takes half of those that had ended off every list, whatever callbacks append, if and only if none had ended at the start or none ends later |
| WatchList.EveryOtherFires | usr/lib/smd/lib/structs/dispatcher.py:255-270 | when everything has ended and nothing is appended, every other entry fires and half of the list, rounded down, stays |
| WatchList.Drained | usr/lib/smd/lib/structs/dispatcher.py:251-279 | such a list is empty after n passes if and only if it was shorter than 2^n |
| Multi.Multi.constructor | usr/lib/smd/lib/modules/backup.py:459-464 | the first command has been started, and the others are still to come |
| Multi.Multi.Poll | usr/lib/smd/lib/modules/backup.py:473-514 | nothing while the command runs; then the next command is started, or the status is reported: at the end of the list, at a failure that ends it, or when the next command, now dropped, cannot be started; an exception of another kind from starting it leaves the poll |
| Multi.Multi.Stop | usr/lib/smd/lib/modules/backup.py:498-500 | the commands still to come are forgotten |
| Multi.PollingRefinesTheLoop | usr/lib/smd/lib/modules/backup.py:459-514 | however it is polled, the runner does a beginning of the plain loop over the list, and is done exactly when that is over; it then reports the status of the last command that ran, except exactly when starting the next one raises an exception that is no OSError |
| Multi.LastIsTheFirstToStop | usr/lib/smd/lib/modules/backup.py:482-494 | the commands that run are the shortest beginning of the list whose last one fails (when errors stop it), is the last of all, or has a successor that cannot be started |
| Multi.RunsWhen | usr/lib/smd/lib/modules/backup.py:481-492 | a command runs if and only if every one before it has ended without an error, when errors stop the list, and each from the second to it could be started |
| Multi.SuccessMeansAllRan | usr/lib/smd/lib/modules/backup.py:488-492 | a list that stops on errors and reports success ran to its end if and only if every command could be started |
| Multi.MissingCommandReportsSuccess | usr/lib/smd/lib/modules/backup.py:490-492 | an instance of the opposite |
| Multi.NothingStartsAfterStop | usr/lib/smd/lib/modules/backup.py:482-500 | no command is started after a stop |
| Schedule.StateFile.Start | usr/lib/smd/lib/modules/backup.py:292-307 | a plan without an entry gets one and a full run; a full run puts the count to 0 and an incremental one adds 1; nothing changes when the file cannot be written |
| Schedule.StateFile.Save | usr/lib/smd/lib/modules/backup.py:925-959 | the count grows by 1 and date and failure are booked; an illegible file loses all other entries; nothing changes when it cannot be written |
| Schedule.StartCounts | usr/lib/smd/lib/modules/backup.py:292-307 | what a start makes of the count it finds, which counts as 0 when it is missing, negative or no number |
| Schedule.OthersAreKept | usr/lib/smd/lib/modules/backup.py:926-959 | a start keeps the result of the last run, a save puts in its own, and the entries of other plans stay unless the file is illegible |
| Schedule.HalfACycleOfIncrementals | usr/lib/smd/lib/modules/backup.py:292-307 | with a save after each run, run j of an incremental plan is full if and only if j is a multiple of half its cycle, rounded down, plus one, whatever other plans do between |
| Schedule.CycleFrom | usr/lib/smd/lib/modules/backup.py:935-947 | the same from any point of the cycle: the two functions together add two to the count per run |
| Schedule.NeverMoreThanACycle | usr/lib/smd/lib/modules/backup.py:1645-1650 | with saves lost anywhere, starts on an illegible file, forced full runs and removals of the file, a plan never makes more incremental runs in a row than its cycle has, as long as its own saves find the file legible |
| Schedule.GarbledSavesNeverFill | usr/lib/smd/lib/modules/backup.py:926-934 | without that condition it may make any number of them |
| Schedule.InCycleExactlyWhen | usr/lib/smd/lib/modules/backup.py:926-947 | an incremental plan stays within its cycle over every run if and only if its saves find the file legible or its cycle is less than two |
| Schedule.IncrementalExactlyWhen | usr/lib/smd/lib/modules/backup.py:292-307 | whatever has happened to the file and to other plans, a run is incremental if and only if it is not forced to be full, finds the file legible, and the starts and saves booked for its plan since the last reset are fewer than the cycle; resets are full runs and saves on an illegible file |
| Schedule.MarksTell | usr/lib/smd/lib/modules/backup.py:925-959 | over every run the plan has an entry exactly while it has not been lost since a reset, and its count is the number of bookings since |
| Queue.Queue.Pop | usr/lib/smd/lib/modules/backup.py:317-323 | the first entry leaves the list and the index, which stay in agreement |
| Queue.Queue.Clear | usr/lib/smd/lib/modules/backup.py:325-327 | list and index are empty, and so in agreement |
| Queue.Queue.Add | usr/lib/smd/lib/modules/backup.py:352-359 | a plan that is not queued goes to the front or the end; list and index stay in agreement |
| Queue.Queue.Remove | usr/lib/smd/lib/modules/backup.py:332-345 | takes out the first entry that matches, or tells an empty queue from one without a match |
| Queue.Queue.NextPlan | usr/lib/smd/lib/modules/backup.py:361-400 | the loop that pops plans until one is eligible ends where the search over the list ends, with the plan whose bad date raises an exception lost |
| Queue.Queue.AddPlans | usr/lib/smd/lib/modules/backup.py:402-453 | the loop over the configured plans adds each as wanted; the result counts those wanted, queued before or not, and an empty configuration has none |
| Queue.MatchesIgnoresTheSlash | usr/lib/smd/lib/modules/backup.py:189-198 | a text matches a plan if and only if it is its id, or its path, of which it may lack the closing slash |
| Queue.NextIsTheFirst | usr/lib/smd/lib/modules/backup.py:361-400 | `next` yields the first plan not passed over and leaves exactly what stands behind it, or empties the queue |
| Queue.ChosenIsEligible | usr/lib/smd/lib/modules/backup.py:367-399 | a plan runs if and only if it passes its checks and was asked for, forced, never ran, waited long enough or failed last time |
| Queue.PassedOverWhen | usr/lib/smd/lib/modules/backup.py:366-399 | when exactly a plan is passed over, and when its date raises an exception |
| Queue.WantedWhen | usr/lib/smd/lib/modules/backup.py:411-451 | when exactly `add_plans` wants a plan in front, and when behind |
| Queue.WishesCount | usr/lib/smd/lib/modules/backup.py:404-453 | the number it reports is that of the plans wanted |
| Queue.QueueIsKept | usr/lib/smd/lib/modules/backup.py:411-451 | `add_plans` leaves the queue as it stands; requests for a path add only in front, others only behind |
| Queue.NewAreWanted | usr/lib/smd/lib/modules/backup.py:411-451 | what it adds was wanted and not yet queued |
| Queue.WantedAreQueued | usr/lib/smd/lib/modules/backup.py:411-451 | every wanted plan is queued afterwards |
| Queue.RunningIsNotQueued | usr/lib/smd/lib/modules/backup.py:413-418 | the plan whose backup is running does not enter the queue |
| Queue.StaysDistinct | usr/lib/smd/lib/modules/backup.py:352-359 | entries stay pairwise distinct |
| Queue.ChosenLeaves | usr/lib/smd/lib/modules/backup.py:361-400 | the plan that `next` yields is no longer queued |
| Queue.RequestedGoesFirst | usr/lib/smd/lib/modules/backup.py:419-431 | when no backup runs, the last plan that is asked for and not yet queued is served at once, and leaves the queue as it was when it is the only one |
| Queue.RequestedStandsFirst | usr/lib/smd/lib/modules/backup.py:352-431 | it stands first in the queue, also while a backup is running |
| Queue.RequestedIsServedWhen | usr/lib/smd/lib/modules/backup.py:352-431 | the one plan that is asked for and passes its checks is served if and only if it was not queued or every entry before it is passed over |
| Queue.QueuedRequestWaits | usr/lib/smd/lib/modules/backup.py:352-354 | an instance of the opposite: a queued plan keeps its place behind one that is due |
| Queue.AfterARun | usr/lib/smd/lib/modules/backup.py:382-396 | after a run that was saved, the plan is eligible by itself at once when it failed and otherwise when its wait has passed, and is queued by itself only after the back-off time |
| Queue.BadDateEndsTheSearch | usr/lib/smd/lib/modules/backup.py:385-385 | a date that cannot be read loses its plan and ends the search |
| BackupJob.Backup.constructor | usr/lib/smd/lib/modules/backup.py:735-754 | a new job waits: no process, nothing watched, no timeout and nothing forwarded |
| BackupJob.Backup.Update | usr/lib/smd/lib/modules/backup.py:1259-1283 | the change is announced with the state before it and ends a pause; a change to ERROR cancels the job in the same call |
| BackupJob.Backup.Stop | usr/lib/smd/lib/modules/backup.py:1089-1119 | cancels once, sets ERROR or DONE, and goes on to the command after the backup |
| BackupJob.Backup.StartPostCmd | usr/lib/smd/lib/modules/backup.py:1456-1497 | the command is started, watched and given a timeout; or the end is announced at once; or an exception is swallowed, with the timeout pending when it comes from starting the command and without when it comes from reading it |
| BackupJob.Backup.Next | usr/lib/smd/lib/modules/backup.py:1336-1454 | the step, with all the steps it enters synchronously, ends, since the distance to the last state falls; and it leaves the job that the recursive description gives, whatever starts, fails or raises on the way |
| BackupJob.Backup.StepPreCmd | usr/lib/smd/lib/modules/backup.py:1223-1257 | PRE_CMD is announced, then the command is watched, absent, failing or raising |
| BackupJob.Backup.StepKeygen | usr/lib/smd/lib/modules/backup.py:988-1035 | KEYGEN is announced, then the key process is watched, or NO_KEYGEN follows and the job goes on unencrypted |
| BackupJob.Backup.StepExec | usr/lib/smd/lib/modules/backup.py:1285-1334 | the new state is announced before the process is started, and a process that cannot be started ends the job in ERROR |
| BackupJob.Backup.StepHashPart2 | usr/lib/smd/lib/modules/backup.py:1513-1568 | HASHING_P2 is announced and the job goes on to packing within the same call, or ends in ERROR |
| BackupJob.Backup.StepUpload | usr/lib/smd/lib/modules/backup.py:1037-1087 | UPLOADING is announced; without a target the job goes on to its end within the same call |
| BackupJob.Backup.StepTimeout | usr/lib/smd/lib/modules/backup.py:1576-1585 | the timeout of a step ends the job in ERROR; that of the command after it announces the end |
| BackupJob.Backup.ProcessEnded | usr/lib/smd/lib/modules/backup.py:1608-1627 | a watched process that has ended is watched no more and moves the job on, also one of a cancelled job |
| BackupJob.Backup.Suspend | usr/lib/smd/lib/modules/backup.py:793-806 | the job is paused exactly when its process could be signalled |
| BackupJob.Backup.Resume | usr/lib/smd/lib/modules/backup.py:781-791 | the pause ends exactly when its process could be signalled |
| BackupJob.RunGood | usr/lib/smd/lib/modules/backup.py:1336-1454 | over every run: a job is cancelled exactly when its state is ERROR or DONE; its announcements form one chain of edges; a live job watches its process and no other and always has a timeout pending |
| BackupJob.AdvancedGood | usr/lib/smd/lib/modules/backup.py:1336-1454 | one call of `_next` keeps that, through all its inner calls |
| BackupJob.RouteTaken | usr/lib/smd/lib/modules/backup.py:1402-1424 | the states a live job has announced are the one route to its state |
| BackupJob.DoneTookEveryStep | usr/lib/smd/lib/modules/backup.py:1402-1454 | a job is done only after exactly one of the two ways to compress, then both hashes, packing and upload, in that order |
| BackupJob.TrailRises | usr/lib/smd/lib/constants/__init__.py:201-212 | every change of state raises its number |
| BackupJob.EndIsForEver | usr/lib/smd/lib/modules/backup.py:1089-1092 | ERROR and DONE are for ever; a cancelled job forwards nothing but its end |
| BackupJob.LockIsGivenBack | usr/lib/smd/lib/modules/backup.py:1345-1368 | once a cancelled job's processes have ended its lock has been given back, or the timeout of a command that broke off will do so, if and only if the command could be read or another process was still watched |
| BackupJob.LockIsLost | usr/lib/smd/lib/modules/backup.py:1114-1119 | a run on which the lock stays for ever: the key process fails and the command for afterwards cannot be read |
| BackupJob.LockIsTakenOnce | usr/lib/smd/lib/modules/backup.py:1375-1386 | the lock is asked for at most once, first of all, and so never after cancellation |
| BackupJob.TimeoutEndsTheJob | usr/lib/smd/lib/modules/backup.py:1374-1374 | a started job that has not ended has a timeout pending that ends it, even after an exception in a step |
| BackupJob.BecomesDoneWhen | usr/lib/smd/lib/modules/backup.py:1107-1112 | a job becomes done if and only if its upload ends well or is skipped and no exception comes of looking through the old backups, or it is asked to stop without force while uploading |
| BackupJob.CallFailsWhen | usr/lib/smd/lib/modules/backup.py:1336-1454 | a call of `_next` on a live job ends it in ERROR if and only if the process that ended had failed, the directory cannot be made, or a step that the call announces fails; and every announced step has its own outcome, a waiting one with its process watched |
| BackupJob.FailedProcessEnds | usr/lib/smd/lib/modules/backup.py:1399-1406 | a process that has failed ends its job in ERROR, whatever the state |
| BackupJob.GoodProcessGoesOn | usr/lib/smd/lib/modules/backup.py:1408-1426 | one that has ended well is followed by the next step, a key by encryption |
| BackupJob.DoneMetNoTrouble | usr/lib/smd/lib/modules/backup.py:1336-1454 | over every run that ends as done nothing of the kind has gone wrong |
| BackupJob.PausedWhen | usr/lib/smd/lib/modules/backup.py:781-806 | a pause begins with a suspension that was signalled, and ends with such a resumption or the next change of state |
| BackupJob.EndIsAnnouncedTwice | usr/lib/smd/lib/modules/backup.py:1345-1369 | an instance: a running job that is stopped announces its end at once and with the end of its process |
| BackupJob.EndIsAnnounced | usr/lib/smd/lib/modules/backup.py:1345-1369 | how often exactly: once unless the command after the backup raises an exception, once more for the process that was watched at the cancellation, and once more when that command's timeout fires |
| BackupJob.AnnouncedOnceWhen | usr/lib/smd/lib/modules/backup.py:1345-1369 | so exactly when it is announced once |
| BackupJob.CutUploadIsDone | usr/lib/smd/lib/modules/backup.py:1107-1111 | a run of five processes whose last one, the upload, still lives when the job becomes done |
| BackupServer.BackupServer.constructor | usr/lib/smd/lib/modules/backup.py:1845-1847 | no job, an empty queue, and the state file as it was found |
| BackupServer.BackupServer.OnJobEvent | usr/lib/smd/lib/modules/backup.py:1627-1627 | the dispatcher's callbacks reach current and dropped jobs alike |
| BackupServer.BackupServer.HookShutdown | usr/lib/smd/lib/modules/backup.py:1864-1868 | the running job is stopped without force, its result saved, and no job is current |
| BackupServer.BackupServer.HookPause | usr/lib/smd/lib/modules/backup.py:1877-1878 | only a running job is suspended |
| BackupServer.BackupServer.HookUnpause | usr/lib/smd/lib/modules/backup.py:1869-1876 | only a running job is resumed |
| BackupServer.BackupServer.ControlForwarded | usr/lib/smd/lib/modules/backup.py:1883-1912 | a message with an end state stops the current job, whose ever it is; a final one also saves and drops it and starts the next plan that is due |
| BackupServer.BackupServer.ControlStop | usr/lib/smd/lib/modules/backup.py:1949-1965 | a running job is stopped when it is named or nothing is; otherwise the first plan that is named leaves the queue |
| BackupServer.BackupServer.ControlClear | usr/lib/smd/lib/modules/backup.py:1913-1922 | the state file is emptied exactly when nothing runs and it can be removed |
| BackupServer.BackupServer.SelectPlan | usr/lib/smd/lib/modules/backup.py:1967-2044 | the queue is filled; unless a job runs, the first eligible plan leaves it and becomes the current job, with its kind of run booked before |
| BackupServer.BackupServer.PickPlan | usr/lib/smd/lib/modules/backup.py:2003-2020 | a plan whose run cannot be booked is lost from the queue and not started |
| BackupServer.BackupServer.StartJob | usr/lib/smd/lib/modules/backup.py:2019-2043 | the new job is the current one, or, when it cannot be started, is stopped and no job is |
| BackupServer.ServedSafe | usr/lib/smd/lib/modules/backup.py:1861-2044 | each single request, hook, message or job event keeps all that the next row says |
| BackupServer.EveryRunIsSafe | usr/lib/smd/lib/modules/backup.py:1861-2044 | over every sequence of requests, hooks, messages, job events and failures: at most one job ever made is running and it is the current one, every dropped job is over, queued plans are distinct, and the running one is not queued |
| BackupServer.AtMostOneRuns | usr/lib/smd/lib/modules/backup.py:1861-2044 | two running jobs are one |
| BackupServer.RunningEndsWhen | usr/lib/smd/lib/modules/backup.py:1883-1912 | what ends a running job, exactly: among others any message about the end of a job, whichever job it is about |
| BackupServer.FinalEndsTheRunning | usr/lib/smd/lib/modules/backup.py:1883-1912 | what any final message does to a running job and to its plan's entry |
| BackupServer.FinalSelects | usr/lib/smd/lib/modules/backup.py:1893-1912 | a final message drops the current job and goes on to the next plan when any is queued |
| BackupServer.FinalBooksTheResult | usr/lib/smd/lib/modules/backup.py:1893-1912 | it books the time, and a failure unless the job is done or has been uploading; that stays booked unless a next backup is started on an illegible file |
| BackupServer.ShutdownBooksTheResult | usr/lib/smd/lib/modules/backup.py:1864-1868 | a shutdown books the same for the running job |
| BackupServer.DoneWaitsFailedDoesNot | usr/lib/smd/lib/modules/backup.py:366-399 | a plan whose backup has ended as done is passed over by itself until its wait has passed, and one whose backup has failed is not |
| BackupServer.SelectedNothing | usr/lib/smd/lib/modules/backup.py:1967-1990 | without power or plans, or with a backup running and none asked for, nothing happens; with one running only the queue changes |
| BackupServer.SelectedStarts | usr/lib/smd/lib/modules/backup.py:1990-2044 | else the first plan that is not passed over leaves the queue with all before it, and is started, as a full backup when asked, if it is eligible and can be booked |
| BackupServer.RequestsReachTheJob | usr/lib/smd/lib/modules/backup.py:1864-1965 | hooks and requests reach the running job |
| BackupServer.StopTakesOut | usr/lib/smd/lib/modules/backup.py:1949-1965 | a request to stop that does not name the running job takes the first named plan out of the queue, and only that |
| BackupServer.ClearedWhenIdle | usr/lib/smd/lib/modules/backup.py:1913-1922 | the state file can be cleared while no backup runs |
| BackupServer.LateFinalStopsTheNext | usr/lib/smd/lib/modules/backup.py:1883-1901 | the final message of a job that is over stops its successor and has a failure booked for that one's plan, also when a further plan is started |
| Locker.LockerServer.constructor | usr/lib/smd/lib/modules/locker.py:843-853 | no lockers, no timers, all flags down |
| Locker.LockerServer.AddTask | usr/lib/smd/lib/structs/dispatcher.py:179-184 | a new timer joins the pending ones |
| Locker.LockerServer.CancelTask | usr/lib/smd/lib/structs/dispatcher.py:157-169 | a pending timer is taken off; one that is not pending is left alone |
| Locker.LockerServer.CloseLocker | usr/lib/smd/lib/modules/locker.py:1319-1327 | the timer is cancelled, and clients are to be told unless it is the backup's |
| Locker.LockerServer.Remove | usr/lib/smd/lib/modules/locker.py:1280-1284 | a locker goes, with its timer |
| Locker.LockerServer.Add | usr/lib/smd/lib/modules/locker.py:1286-1317 | a request is refused for its name or time, ignored for a locker that is there or already as asked, or ends, replaces or makes a locker, whose old timer is cancelled in the same call |
| Locker.LockerServer.Fire | usr/lib/smd/lib/modules/locker.py:1319-1327 | a timer that fires closes whatever locker has its name, or ends the back-off |
| Locker.LockerServer.Screen | usr/lib/smd/lib/modules/locker.py:1256-1278 | a back-off begins unless one is going on, so that there is never more than one |
| Locker.LockerServer.Reload | usr/lib/smd/lib/modules/locker.py:1019-1098 | all lockers and exactly their timers are gone, in whatever order they are gone through; a back-off begins unless one is going on, or a lid switch that cannot be opened has ended the call with an exception |
| Locker.LockerServer.SetWake | usr/lib/smd/lib/modules/locker.py:902-941 | a Hibernate locker that expires before the alarm is removed, also when the alarm cannot be written; one that outlasts it prevents the alarm |
| Locker.LockerServer.CheckWake | usr/lib/smd/lib/modules/locker.py:992-1017 | an alarm is used up by the check, and counts only when it has gone off, with the ability and without a locker against it |
| Locker.LockerServer.BackOff | usr/lib/smd/lib/modules/locker.py:1177-1181 | a new back-off replaces the old |
| Locker.LockerServer.OnSuspend | usr/lib/smd/lib/modules/locker.py:1147-1182 | before: flags and alarm are reset, and the alarm set unless already suspending; after: flags are reset, and the machine hibernates or backs off |
| Locker.LockerServer.OnHibernate | usr/lib/smd/lib/modules/locker.py:1184-1210 | before: the machine is hibernating and nothing else; after: flags are reset and a back-off begins |
| Locker.AppliedMatched | usr/lib/smd/lib/modules/locker.py:250-261 | one operation keeps lockers and timers in bijection |
| Locker.TimersMatchLockers | usr/lib/smd/lib/modules/locker.py:1280-1327 | over every run each timed locker owns exactly one pending timer, due at its expiry, untimed ones own none, and no pending timer belongs to a locker that is gone |
| Locker.OldTimersAreHarmless | usr/lib/smd/lib/modules/locker.py:1319-1322 | so a timer that fires removes the very locker it was made for, when its time has come, and no other |
| Locker.TimersAreDistinct | usr/lib/smd/lib/modules/locker.py:253-261 | two lockers never share a timer |
| Locker.AskedForSeconds | usr/lib/smd/lib/modules/locker.py:250-263 | asking for `n` seconds at time `t` gives one locker that expires at `t + n`, with one timer due then, in place of the old ones; all other lockers and timers stay |
| Locker.AskedForEver | usr/lib/smd/lib/modules/locker.py:1286-1317 | asking without a time gives one that never expires |
| Locker.AskedInVain | usr/lib/smd/lib/modules/locker.py:1286-1305 | and the requests that are refused, that change nothing, or that end a locker |
| Locker.TimersKeepTheirTime | usr/lib/smd/lib/modules/locker.py:255-260 | over every run a pending timer is due at the time that the request that made it asked for |
| Locker.SleepFlagsExclude | usr/lib/smd/lib/modules/locker.py:1147-1210 | over every interleaving suspending and hibernating exclude each other, a set alarm means suspending, and each alarm leads to at most one hibernation |
| Locker.HibernatesWhen | usr/lib/smd/lib/modules/locker.py:1167-1174 | when exactly the machine hibernates by itself |
| Locker.ArmedWhen | usr/lib/smd/lib/modules/locker.py:1152-1160 | when exactly the alarm is set |
| Locker.SuspendingWhen | usr/lib/smd/lib/modules/locker.py:1147-1210 | over every run the machine counts as suspending if and only if some message has announced a suspension that no later wake-up or hibernation has ended |
| Locker.HibernatingWhen | usr/lib/smd/lib/modules/locker.py:1147-1210 | and as hibernating if and only if some message has announced a hibernation since which it has neither woken nor begun to suspend |
| Locker.WakingBacksOff | usr/lib/smd/lib/modules/locker.py:1161-1209 | waking begins a new back-off of five seconds in place of any other, unless the machine hibernates; lockers stay |
| Locker.SuspendingDrops | usr/lib/smd/lib/modules/locker.py:902-917 | suspending removes a Hibernate locker that would expire before the alarm, silently, and nothing else |
| Locker.ArmedAfter | usr/lib/smd/lib/modules/locker.py:1147-1210 | over every run the alarm counts as set if and only if the last message about sleep announced a suspension of a machine not suspending, with the ability to hibernate, no Hibernate locker that outlasts the alarm, and the alarm written |
| Locker.HibernatesAfter | usr/lib/smd/lib/modules/locker.py:1161-1176 | a wake-up after any run hibernates the machine if and only if the alarm was set like that and has gone off, and then the ability is there and a Hibernate locker is not |
| Locker.RepeatTakesTheAlarmBack | usr/lib/smd/lib/modules/locker.py:1152-1155 | a repeated message before suspension takes the alarm back |
| Locker.ChangesAreAnnounced | usr/lib/smd/lib/modules/locker.py:1280-1327 | clients are told of every change of a locker other than Backup, except on reload and when suspending removes a Hibernate locker |
| Locker.BackupIsSilent | usr/lib/smd/lib/modules/locker.py:1311-1328 | clients are never told of the Backup locker |
| Locker.ReloadedIsEmpty | usr/lib/smd/lib/modules/locker.py:1090-1098 | a reload leaves no locker, and no timer but that of a back-off |
| Locker.ScreenBegins | usr/lib/smd/lib/modules/locker.py:1256-1270 | a look at the screens begins a back-off of five seconds unless one is going on or none is wanted |
| BackupLock.LastWord | usr/lib/smd/lib/modules/locker.py:1286-1317 | of a job's messages, handled in the order they were forwarded, a release leaves no Backup locker; other lockers are left alone |
| BackupLock.KeptAwakeWhileRunning | usr/lib/smd/lib/modules/backup.py:1345-1386 | the machine is kept awake while a job runs, and let go afterwards, at once or with a pending timeout, with the one exception of `LockIsGivenBack` |
| Vm.VM.ProcessExit | usr/lib/smd/lib/modules/hydra.py:288-294 | a process that was watched is watched no more; a waiting machine has failed and any other that is not stopped is done, whichever process it was |
| Vm.VM.Sleep | usr/lib/smd/lib/modules/hydra.py:396-410 | running becomes sleeping and back exactly when the process could be signalled; every other request fails and changes nothing |
| Vm.VM.Stop | usr/lib/smd/lib/modules/hydra.py:1326-1421 | with force the machine is cleared without error; without, it is refused, begins its grace period, or is cleared when its process is dead; exactly its lost devices leave the index |
| Vm.VM.Thread | usr/lib/smd/lib/modules/hydra.py:497-532 | a machine that is done or failed, or has waited ten ticks, is cleared; one whose sockets are open is running; exactly its lost devices leave the index |
| Vm.VM.Start | usr/lib/smd/lib/modules/hydra.py:835-890 | a sleeping machine wakes; otherwise the machine is stopped first, and runs or waits, under a new process that is watched, only when everything up to the launch went well |
| Vm.VM.UsbAdd | usr/lib/smd/lib/modules/hydra.py:1477-1521 | a device is added under the next free id exactly when nobody owns it and the machine takes it, to both books |
| Vm.VM.UsbRemove | usr/lib/smd/lib/modules/hydra.py:1539-1557 | a device named by itself leaves both books |
| Vm.VM.UsbRemoveId | usr/lib/smd/lib/modules/hydra.py:1524-1538 | a device named by its id leaves both books |
| Vm.VM.UsbClean | usr/lib/smd/lib/modules/hydra.py:534-549 | devices leave both books one by one; a refusal stops half-way and leaves the books in step |
| Vm.VM.HighestId | usr/lib/smd/lib/modules/hydra.py:1490-1490 | the greatest id in use |
| Vm.EveryStepIsInTheTable | usr/lib/smd/lib/modules/hydra.py:288-532 | over every run each change of a machine's state is in one table, and a machine that waits has not waited too long |
| Vm.WhereStatesComeFrom | usr/lib/smd/lib/modules/hydra.py:288-410 | sleeping is entered only from running, failed only from waiting, and only a start leaves stopped |
| Vm.WaitingEnds | usr/lib/smd/lib/modules/hydra.py:512-528 | a machine whose process is not running waits the ticks that are left of ten, and is then cleared away |
| Vm.TickTakesAllOrNone | usr/lib/smd/lib/modules/hydra.py:497-532 | a tick takes all of a machine's devices or none |
| Vm.WaitingRuns | usr/lib/smd/lib/modules/hydra.py:512-532 | a waiting machine runs with the tick that finds its process living and its sockets open |
| Vm.TickClearsWhen | usr/lib/smd/lib/modules/hydra.py:497-528 | when exactly a tick clears a machine |
| Vm.EndsAs | usr/lib/smd/lib/modules/hydra.py:288-294 | the end of a watched process makes a waiting machine a failed one and any other that is not stopped a done one |
| Vm.SleepsWhen | usr/lib/smd/lib/modules/hydra.py:396-410 | when exactly a machine goes to sleep or wakes |
| Vm.SoftStopDoes | usr/lib/smd/lib/modules/hydra.py:1326-1362 | what a soft stop does: the one grace period, a stop at once, or nothing |
| Vm.StartsWhen | usr/lib/smd/lib/modules/hydra.py:835-890 | when exactly a start goes well, and what it makes of the machine |
| Vm.ForceStopClears | usr/lib/smd/lib/modules/hydra.py:835-1421 | over every run a forced stop leaves no process, timer, interfaces or devices, exactly unless the last start failed after listing interfaces that were not removed again, or on a machine that had devices or a grace period running |
| Vm.TidyAfter | usr/lib/smd/lib/modules/hydra.py:846-870 | one operation: only a start makes a machine that counts as stopped without being clear, and exactly when it fails and leaves something |
| Vm.ForceStopClearsFrom | usr/lib/smd/lib/modules/hydra.py:1326-1421 | the same from any state that keeps the invariants |
| Vm.FailedLaunchLeaves | usr/lib/smd/lib/modules/hydra.py:862-869 | a failed launch makes such a machine |
| Vm.LateExitEndsTheNewMachine | usr/lib/smd/lib/modules/hydra.py:846-870 | a run on which the late end of process 0 ends the machine whose process is 1 |
| Vm.OnlyTheOwnEndEnds | usr/lib/smd/lib/modules/hydra.py:288-294 | a machine for which only its own process is watched is over only when that has ended, whatever else happens to it |
| Vm.AliveWhileItsProcessIs | usr/lib/smd/lib/modules/hydra.py:846-870 | a machine just started lives as long as its process over every run if and only if all earlier ends had been reported |
| Hydra.HydraServer.Stop | usr/lib/smd/lib/modules/hydra.py:1762-1804 | every machine is stopped by force and everything forgotten |
| Hydra.HydraServer.Start | usr/lib/smd/lib/modules/hydra.py:1570-1734 | the manager runs, or nothing has changed, or every machine is stopped and forgotten |
| Hydra.HydraServer.Thread | usr/lib/smd/lib/modules/hydra.py:1736-1760 | without the bridge the tick only brings it up, or forgets all machines; without machines it takes it down; otherwise every machine has its part |
| Hydra.HydraServer.ThreadAll | usr/lib/smd/lib/modules/hydra.py:1751-1760 | in whatever order the machines are gone through, those stopped are dropped, the others changed by their part alone, and exactly the devices of those cleared leave the index |
| Hydra.HydraServer.ThreadOne | usr/lib/smd/lib/modules/hydra.py:1751-1760 | one turn changes or drops one machine and leaves all others alone |
| Hydra.HydraServer.HookStart | usr/lib/smd/lib/modules/hydra.py:1868-1882 | a machine is registered when its start goes well, in place of any other; however the start fails, the registered one is dropped |
| Hydra.HydraServer.HookStop | usr/lib/smd/lib/modules/hydra.py:1897-1903 | a machine that is not running is turned down; the stop of one that is leaves all others and their devices alone |
| Hydra.HydraServer.GraceOver | usr/lib/smd/lib/modules/hydra.py:1358-1358 | the end of a soft stop's grace period stops the machine by force |
| Hydra.HydraServer.HookUsbAdd | usr/lib/smd/lib/modules/hydra.py:1937-1945 | both books get the device, or neither; a machine that is not running is turned down |
| Hydra.HydraServer.HookUsbClean | usr/lib/smd/lib/modules/hydra.py:1930-1936 | both books lose the same devices, also when the machine refuses one half-way; a machine that is not running is turned down |
| Hydra.AgreementKept | usr/lib/smd/lib/modules/hydra.py:1477-1557 | an event keeps index and machines in agreement if and only if it drops or replaces no machine that has devices without a stop, which a failed start does like a successful one |
| Hydra.OwnershipIsKept | usr/lib/smd/lib/modules/hydra.py:1477-1557 | over every such run each device belongs to the one machine the index names, and ids within a machine are positive and distinct |
| Hydra.CullAgrees | usr/lib/smd/lib/modules/hydra.py:1751-1760 | the tick keeps the agreement if and only if it finds no stopped machine with devices |
| Hydra.DropAgrees | usr/lib/smd/lib/modules/hydra.py:1875-1879 | dropping a machine keeps it if and only if the machine has no devices |
| Hydra.FailedLaunchBreaksTheIndex | usr/lib/smd/lib/modules/hydra.py:1871-1882 | a run on which a failed launch leaves a device booked for a machine that is gone |
| Hydra.BringingUpLooksAtNoMachine | usr/lib/smd/lib/modules/hydra.py:1737-1744 | a run on which a machine that is done stays registered over a tick |
| Hydra.TickLeavesTheLive | usr/lib/smd/lib/modules/hydra.py:1736-1760 | after a tick every registered machine is waiting, running or sleeping, exactly unless the tick had to bring up the bridge and one was not |
| Hydra.WaitingMachineIsDropped | usr/lib/smd/lib/modules/hydra.py:512-528 | under ticks alone a waiting machine whose process is not running is dropped by the tick that makes ten, and not before, whatever becomes of the others |
| Hydra.WaitingEndsInTime | usr/lib/smd/lib/modules/hydra.py:512-528 | over every run of a running manager, a waiting machine that is not started again and whose process no tick finds running has counted each tick, and waits no more once they make ten |
| Hydra.MachinesStayAlright | usr/lib/smd/lib/modules/hydra.py:1736-1960 | over every run a registered machine has a process object exactly while it is not stopped, and has not waited too long |
| Hydra.EventsAreOperations | usr/lib/smd/lib/modules/hydra.py:1736-1945 | what an event does to a machine is an operation of the machine, or nothing |
| Hydra.MachinesHaveLived | usr/lib/smd/lib/modules/hydra.py:1736-1945 | over every run each registered machine is one that a run of its own from a fresh one ends in |
| Hydra.OthersAreLeft | usr/lib/smd/lib/modules/hydra.py:1897-1945 | a request for one machine leaves all others alone |
| Hydra.LaunchDoes | usr/lib/smd/lib/modules/hydra.py:1863-1886 | a launch registers the new machine exactly when its process could be started, and leaves the others unless bringing up the bridge is undone |
| Hydra.TickMinds | usr/lib/smd/lib/modules/hydra.py:1736-1760 | when a tick shuts the manager down, brings it up, or drops all machines |
| Hydra.TickReaches | usr/lib/smd/lib/modules/hydra.py:1750-1760 | each machine has its own part of the tick, is dropped exactly if it is stopped after that, and loses its place in the index with its devices |
| Hydra.AddDoes | usr/lib/smd/lib/modules/hydra.py:1477-1521 | a free device is given to the one machine that it was asked for |
| Pages.HydraPages.Total | usr/lib/smd/lib/modules/hydra.py:2008-2008 | the sum of the ledger |
| Pages.HydraPages.Add | usr/lib/smd/lib/modules/hydra.py:2021-2032 | a written reservation adds to the machine and to the file; a failed write changes neither |
| Pages.HydraPages.Release | usr/lib/smd/lib/modules/hydra.py:2004-2020 | what a full, partial or excessive release takes off the ledger and off the file; a failed write changes neither |
| Pages.AddedConserves | usr/lib/smd/lib/modules/hydra.py:2021-2031 | a reservation keeps the file equal to the sum of the ledger, and makes it so when it is written |
| Pages.ReleasedConserves | usr/lib/smd/lib/modules/hydra.py:2004-2017 | a release makes it so if and only if it releases all that the machine has |
| Pages.EveryRunConserves | usr/lib/smd/lib/modules/hydra.py:1999-2032 | over every sequence of reservations and full releases, with writes failing anywhere, the file holds the sum of the ledger |
| Pages.ReleaseTakesTheAccumulated | usr/lib/smd/lib/modules/hydra.py:2004-2014 | a release takes off the file exactly what its machine has accumulated over the whole run |
| Pages.LedgerIsAccumulated | usr/lib/smd/lib/modules/hydra.py:2021-2031 | the ledger of a machine is what it has reserved since its last release |
| Pages.ShutdownConserves | usr/lib/smd/lib/modules/hydra.py:1790-1794 | the 0 written on shutdown is right if and only if nothing is reserved |
| Pages.PagesAreLost | usr/lib/smd/lib/modules/hydra.py:1790-2017 | two pages of which one is released, or that are reserved when the manager shuts down |

## Left out

- Sockets, epoll, signals, file contents and the command lines of `tar`, `openssl`, `rsync`, `ip` and QEMU: foreign effects, of which only success, failure and exit status are modelled.
- The JSON text of messages and files: a payload is opaque bytes in `Framing`, a map in `Storage` and a record in `Schedule`; the receiver's refusal of text that is no dictionary is not modelled.
- Interleavings inside a handler, the `alarm` watchdogs, and the order in which the dispatcher takes messages.
- `_step_read` of a backup, `_cleanup` beyond whether it raises, `resume` and `suspend` beyond the paused flag, permission checks, notifications, the lid and lock screen, guest-agent commands, and the building of command lines: they change none of the modelled state.
- ConfigDiff.WritePrefs: the keys come in any given order, of which the sorted one is an instance; the lower-casing of non-ASCII letters, which only decides where empty lines go and whether a line is locked, is left as it is for ASCII.
- Framing.ReceiveAll: a stream whose reads are all whole; what the receiver makes of the rest of a stream after a read that fell short is not followed.
- Storage.Flex.SetName: names are strings; a value that is already part of the store, a string or list as the last container of a path, and dictionaries changed from outside are not modelled.
- WatchList.DispatchExecuter.CheckEntries: entries that are no tuple, which nothing appends, and entries appended by another thread during a pass; that no pass follows one that an exception has ended is left to the caller.
- Multi.Multi.constructor: a first command that cannot be started leaves no object, and is not modelled.
- Hydra.HydraServer.GraceOver: the grace timer of a machine that has been dropped or replaced still fires in the source, and stops an object that is not registered; it then releases the pages of a new machine with the same id, which is not modelled.
- The texts of answers to users.
- Queue.RequestedIsServedWhen: a plan that is queued is taken to be as the configuration now has it.
- Queue.Queue.NextPlan: a date is a number of seconds or illegible; fractions of a second and time zones are not modelled.
- Queue.RunningIsNotQueued: that equal identifiers have equal ids is a precondition, because the id is computed from the identifier by a hash that is not part of this model.
- BackupServer.EveryRunIsSafe: the same, for all plans of the configuration.
- BackupServer.BackupServer.OnJobEvent: the list of all jobs belongs to the model; the source keeps dropped jobs only through the callbacks of the dispatcher.
- Schedule.StateFile.Start: the size kept in a plan's entry, which nothing reads back, and entries that are no dictionary.
- Locker.LockerServer.Add: a locker is a value in the table; rounding of the clock, and time passing between reading it and making the timer, are not modelled.
- Vm.VM.UsbAdd: that the device is plugged in is a parameter, and the next id is the intended one.
- Vm.VM.Start: the reservation of pages made while the command line is built is in `Pages`, not here; whether a process lives does not change during one call.
- Pages.HydraPages.Release: who calls it is not modelled; the failed launch of a machine leaves its reservation in the ledger, as it leaves its interfaces.
- The command-line tools, the desktop glue and the other modules of the daemon, the shell scripts and configuration data: they would add only easy members.
