# A verified model of python-sipsimple's state machines and transformations

python-sipsimple is a SIP client library. Between its network and audio back ends sit a number of self-contained
algorithms and state machines. The modules in this directory model them in Dafny and prove what they are for; the
command `dafny verify dfyconfig.toml` checks everything.

What is an object or a loop in the program is a class or a method here, proved against a function of the old state or
of the inputs; the lemmas then say what holds of those functions over all inputs and all runs.

**Configuration text** (`ConfigText`, `ConfigGrammar`, `ConfigFile`, `ConfigNesting`, `ConfigRoundTrip`,
`ConfigLimits`). The printer and the hand-written tokenizer, line parser and indentation stack of `FileBackend`.
`ConfigGrammar` says what a line means from the way it is written, and `ConfigNesting` where it goes. Main results:
comments change nothing; a saved tree of data is loaded as it was, empty lists becoming None, if and only if no name
in it is empty and every string is one the format can carry; after one cycle nothing changes any more, for any data
whose file loads. The dictionaries that `load` shares between its stack and the tree are an arena of dictionaries
referred to by number.

**SHA-1** (`Sha1Spec`, `WordBits`, `Sha1`). `Sha1Spec` is the definition in sections 4, 5 and 6.1 of RFC 3174; `Sha1`
is the optimised code of `_sha1.h`: circular schedule, rewritten functions, renamed unrolled rounds, partial-block
buffering. Main result: for every message and every way of splitting it into updates the digest is the one defined.

**Audio bridges** (`AudioMesh`, `AudioConferences`, `AudioBridges`, `AudioTree`). Every operation of a bridge, root
bridge and conference against a mixer whose connections are a set. Main results: over every run of operations on any
number of bridges of one mixer, in which streams join and leave a conference and it is held and unheld, the mixer
carries the full meshes of the bridges and nothing else; a tree of bridges acts as one flat bridge, each leaf hearing
every other along exactly one path and itself along none; and so does the conference after every run. Assumptions,
written as preconditions: live ports have slots of their own but for the sound device, which is slot 0 on every
bridge, and a notification of a slot change carries the slot there was. Joining, leaving, hold and unhold need no
assumption.

**Settings** (`SettingsStore`, `SettingTracking`, `Persistence`). The in-place tree merge of `ConfigurationManager`,
the change tracking of settings and ids, and the whole way of an object through state, store and file and back. Main
results: the merge decides about every setting on its own, whatever the order of iteration; an object comes back from
a new place if and only if every item of its collections has an explicit setting.

**Session media** (`MediaSlots`, `MediaTalks`, `SessionStreams`). Which SDP line each stream owns, in offers and
answers (RFC 3264). Main results: over every run the active streams own distinct lines, the SDP never shrinks, and for
changes that go through it is never longer than the largest number of streams at one time. The condition is that no
renegotiation disables the line of an active stream; `NewSlotsAreUnused` shows it is exact: such a line is handed out
again. The comment in `accept_proposal` that the append index equals the current length holds.

**Subscriptions, registrations, start and stop** (`Subscribers`, `Registrars`, `Applications`). Each stretch of code
between two waits, or under one lock, is a step, and every theorem is about all interleavings of steps. A subscriber
and a registrar do what the last call asked for once their queues are handled, and retry what failed. A subscriber
never forgets and never resurrects; a thread that fails of itself after it was killed can leave a timer behind, which
is shown to be the only case and harmless. Registration back-off is a power of two held at 30 seconds. No stop request
is lost, a boot that nobody stops ends as started, the application's state only moves forward and its end is announced
once, also when the engine fails to start, as long as it does not fail between its report that it started and the end
of the boot; where it does, the lemma `FailureDuringBoot` shows in every state what goes wrong.

**XML lists and resource lists** (`XmlOrder`, `XmlLists`, `ResourceLists`). The two indexes of a list element agree
with its children through every run, and the children are the stable sort of what was inserted. The breadth-first
search of a resource-list document finds every element's list if and only if no two named lists that have elements
compare equal, because lists are recognised by comparing them; and the path made for every element leads to it alone
if and only if no two sibling lists without names compare equal.

**Routes** (`StableSorts`, `LetterCase`, `Lookups`). RFC 3263 lookups over any DNS: what is found and in which order,
which routes each kind of URI leads to, and over which transports.

**Address book** (`NameOrder`, `AddressBooks`). The reload that makes local objects equal those of a remote document,
and what it writes back to whom. That no write goes to the originating account for an object equal to its copy is
false in one way: cards compare the order of members and addresses, local ones list them by id, and so an account
whose document has another order is sent what it has. `OrderCounts` gives such a group, `GroupHeard` and
`ContactHeard` the exact condition.

## Model

| member | source | states |
|---|---|---|
| ConfigText.LineBuffer.constructor | sipsimple/configuration/backend/file.py:167-167 | the character queue starts as the whole line |
| ConfigText.LineBuffer.AdvanceToNextToken | sipsimple/configuration/backend/file.py:124-131 | drops exactly the leading white space, reports how much that was, and empties the queue when a comment starts there |
| ConfigText.LineBuffer.NextToken | sipsimple/configuration/backend/file.py:132-165 | consumes exactly one token: quotes are removed, escapes resolved, and an unquoted delimiter, blank or comment ends it; a trailing backslash and a missing quote are errors |
| ConfigText.ParseLine | sipsimple/configuration/backend/file.py:123-199 | the queue-based parser computes the recursive line grammar for every line: blank, section, setting without value, text, list, and each of the five errors |
| ConfigText.SubstitutionIsCharwise | sipsimple/configuration/backend/file.py:223-229 | the four successive replacements inside quotes act as one substitution of each character; none rewrites what an earlier one produced |
| ConfigText.TokenOfEscape | sipsimple/configuration/backend/file.py:132-165 | scanning an escaped string gives back the string and leaves whatever follows it, for every string the format can carry |
| ConfigText.EscapeEnds | sipsimple/configuration/backend/file.py:223-229 | an escaped string is never empty and never starts with white space, a comment sign or a separator |
| ConfigGrammar.TokenMeans | sipsimple/configuration/backend/file.py:132-165 | a token written in bare, escaped and quoted pieces is read as the characters they stand for, an escaped n or r being a line end, whatever follows |
| ConfigGrammar.TokenCases | sipsimple/configuration/backend/file.py:132-165 | every line starts with such a token, which ends at a delimiter, a comment, white space or the end of the line, or is broken off |
| ConfigGrammar.BrokenMeans | sipsimple/configuration/backend/file.py:132-165 | a token broken off behind a backslash or inside quotes is the error for that |
| ConfigGrammar.CommentIsBlank | sipsimple/configuration/backend/file.py:124-131 | a line of white space and a comment is blank, whatever the comment says |
| ConfigGrammar.NameAloneMeans | sipsimple/configuration/backend/file.py:167-199 | a name and a colon open a section, a name and an equal sign alone set nothing, and a comment may follow |
| ConfigGrammar.NameErrors | sipsimple/configuration/backend/file.py:167-199 | a name without a separator, a separator without a name, and anything but a comment behind a colon are the three errors |
| ConfigGrammar.ValuesMean | sipsimple/configuration/backend/file.py:183-199 | one value is read as a text and several as a list in order, a comma at the end makes a list, and anything else behind a value is an error |
| ConfigGrammar.SettingMeans | sipsimple/configuration/backend/file.py:167-199 | a name, an equal sign and values set the name to what the values stand for |
| ConfigGrammar.BrokenNameMeans | sipsimple/configuration/backend/file.py:132-165 | a line whose name is broken off is an error |
| ConfigGrammar.CommentChangesNothing | sipsimple/configuration/backend/file.py:124-131 | behind a line in which nothing is quoted or escaped, white space and a comment change neither name, separator nor value |
| ConfigGrammar.SpaceBehindChangesNothing | sipsimple/configuration/backend/file.py:167-167 | the end of a line and other ASCII white space behind it change nothing |
| ConfigFile.BuildGroup | sipsimple/configuration/backend/file.py:201-221 | settings come before subgroups, both by name, nested by four blanks a level; an object of another type anywhere is the only error |
| ConfigFile.Save | sipsimple/configuration/backend/file.py:100-121 | the text of the file, or the builder error |
| ConfigFile.PopValid | sipsimple/configuration/backend/file.py:82-98 | closing groups keeps the stack strictly indented and never loses the root group |
| ConfigFile.Step | sipsimple/configuration/backend/file.py:82-98 | every parsed line keeps the stack strictly indented over a root group, and references pointing from older to newer dictionaries |
| ConfigFile.CloseGroups | sipsimple/configuration/backend/file.py:88-90 | pops exactly the groups the line is not inside of |
| ConfigFile.Load | sipsimple/configuration/backend/file.py:68-98 | the loop over lines with the shared dictionaries builds the tree that the run of the grammar defines, or the first error |
| ConfigNesting.CommentLineChangesNothing | sipsimple/configuration/backend/file.py:68-98 | comment lines put anywhere between the lines of a file leave what is loaded as it is |
| ConfigNesting.StackIsOpenSections | sipsimple/configuration/backend/file.py:82-98 | a group is on the stack if and only if it is the root or a section whose header was indented less than every line since that said something |
| ConfigNesting.LineGoesTo | sipsimple/configuration/backend/file.py:82-98 | a line goes to the open section that is indented most of those indented less than the line, or else to the root |
| ConfigNesting.LinePuts | sipsimple/configuration/backend/file.py:82-98 | a setting puts its value, and a section a new empty dictionary, under its name where it goes, and nothing else changes |
| ConfigNesting.RunIsFold | sipsimple/configuration/backend/file.py:68-98 | loading a file puts its lines in turn |
| ConfigRoundTrip.SettingParsed | sipsimple/configuration/backend/file.py:123-199 | a printed setting is parsed with its name, its depth and its value, an empty list as no value |
| ConfigRoundTrip.SectionParsed | sipsimple/configuration/backend/file.py:123-199 | a printed section header is parsed with its name and its depth |
| ConfigRoundTrip.ListParsed | sipsimple/configuration/backend/file.py:183-199 | a printed list is parsed as the same items, also a list of one |
| ConfigRoundTrip.LinesRun | sipsimple/configuration/backend/file.py:68-98 | reading the lines a group was printed as adds exactly that group to the group open at its level, at every depth of nesting |
| ConfigRoundTrip.StoredDataIsLoaded | sipsimple/configuration/backend/file.py:68-121 | save then load gives back the same tree, empty lists becoming None |
| ConfigLimits.LineIsStorable | sipsimple/configuration/backend/file.py:123-199 | a line in which every quoted part needs its quotes only ever yields names and values the format can carry |
| ConfigLimits.RoundTrip | sipsimple/configuration/backend/file.py:68-121 | the round trip holds if and only if no name is empty and every string has no white space outside the escaped kinds unless it is quoted for another reason |
| ConfigLimits.SecondCycleChangesNothing | sipsimple/configuration/backend/file.py:68-121 | of any data that can be printed and whose file loads: after one save and load, further cycles change neither the tree nor the file |
| Sha1.PhaseIsStandard | sipsimple/util/_sha1.h:57-69 | the rewritten boolean functions and the constants are those of section 5 of RFC 3174, for every word |
| Sha1.SubRoundIsRound | sipsimple/util/_sha1.h:90-104 | one sub-round with renamed registers is one round of section 6.1 of RFC 3174 |
| Sha1.Expand | sipsimple/util/_sha1.h:71-87 | overwriting one word of the circular sixteen-word schedule gives the next word of the eighty-word schedule |
| Sha1.FiveRounds | sipsimple/util/_sha1.h:111-221 | five sub-rounds bring the register names back to where they were |
| Sha1.TwentyRounds | sipsimple/util/_sha1.h:111-221 | each unrolled phase is twenty rounds of the standard over the circular schedule |
| Sha1.Compress | sipsimple/util/_sha1.h:111-221 | for every state and block the compression is the eighty-round loop of section 6.1 of RFC 3174 |
| WordBits.OrIsSum | sipsimple/util/_sha1.h:281-281 | the OR of 64-bit words that have no bit in common is their sum |
| Sha1.BitsAreCount | sipsimple/util/_sha1.h:281-281 | joining the shifted block counter and the shifted buffer index by OR gives the number of bits, a counter that wraps around included |
| Sha1.BitCountIsLength | sipsimple/util/_sha1.h:281-281 | a block counter that wraps around still gives eight times the message length modulo 2 to the 64 |
| Sha1.LengthBytes | sipsimple/util/_sha1.h:283-290 | storing the two halves of the length is the big-endian length field of section 4 of RFC 3174 |
| Sha1.HashOfLastBlocks | sipsimple/util/_sha1.h:264-292 | the one or two blocks built in place are the padding of section 4 of RFC 3174 |
| Sha1.Context.constructor | sipsimple/util/_sha1.h:223-234 | a fresh context stands for the empty message |
| Sha1.Context.CompressBlock | sipsimple/util/_sha1.h:244-256 | one more whole block is folded into the state and the counter |
| Sha1.Context.UpdateBlocks | sipsimple/util/_sha1.h:253-262 | whole blocks are compressed and the rest, less than a block, is buffered |
| Sha1.Context.Update | sipsimple/util/_sha1.h:236-262 | an update with any chunk appends it to the message; the buffer index stays below 64 |
| Sha1.Context.Digest | sipsimple/util/_sha1.h:264-314 | the digest is the hash of the whole message padded as in section 4 of RFC 3174 |
| Sha1.HashChunks | sipsimple/util/_sha1.h:236-314 | however a message is split into chunks, the digest is the one-shot hash |
| AudioMesh.EventKeepsMesh | sipsimple/audio.py:158-244 | an addition, a removal or a slot change keeps the ports of a bridge a full mesh, with the links of the multiplexer and demultiplexer |
| AudioMesh.EventsKeepMesh | sipsimple/audio.py:158-244 | so does any sequence of them |
| AudioMesh.ChangeIsRemoveThenAdd | sipsimple/audio.py:217-244 | reconnecting only the side whose slot changed is the same as removing the port and adding it with its new slots |
| AudioMesh.OwnedConnections | sipsimple/audio.py:158-199 | the connections between the slots of a bridge are exactly its full mesh |
| AudioMesh.OtherBridgeKept | sipsimple/audio.py:158-244 | what happens on one bridge leaves the mesh of another alone, though both may hold the sound device, which is slot 0 on each |
| AudioConferences.DoKeepsMeshes | sipsimple/audio.py:158-244 | of any number of bridges on one mixer: an event on one of them leaves the mixer with the meshes of all and nothing else |
| AudioConferences.StepIsGood | sipsimple/audio.py:353-389 | joining, leaving, hold, unhold, other ports put and taken, and slot changes keep all bridges meshed; a stream has its device on its bridge exactly when it is not a member, the conference unless on hold |
| AudioConferences.StreamsMove | sipsimple/audio.py:363-375 | after joining, a stream is a member, its bridge on that of the conference and its device off its own; after leaving it is the other way round; no other bridge changes |
| AudioConferences.HoldMoves | sipsimple/audio.py:377-389 | after hold the conference is on hold and the device off its bridge, after unhold neither; no other bridge changes |
| AudioConferences.OthersMove | sipsimple/audio.py:158-244 | other ports are put on a bridge, taken off it, and known by new slots, and nothing else changes |
| AudioConferences.EveryRun | sipsimple/audio.py:158-389 | so does every run of these: the mixer carries the meshes of the bridges and nothing else, and each bridge owns exactly its own |
| AudioConferences.TreeIsCarried | sipsimple/audio.py:109-118 | a conference with the bridges of its members is a tree of bridges whose connections the mixer carries exactly |
| AudioConferences.ConferenceIsFlat | sipsimple/audio.py:109-118 | after every run, everything in a conference is heard by everything else in it along exactly one path and by itself along none |
| AudioBridges.Reconnect | sipsimple/audio.py:217-244 | the four cases of a truthful slot-change notification leave the connections of the new face and none of the old |
| AudioBridges.AudioBridge.constructor | sipsimple/audio.py:123-132 | a new bridge has no ports |
| AudioBridges.AudioBridge.Add | sipsimple/audio.py:158-182 | the mixer and the ports become those of the full mesh with one port more; a port of another mixer or one already there is an error |
| AudioBridges.AudioBridge.Remove | sipsimple/audio.py:184-199 | exactly the connections of the port go; a port that is not there is an error |
| AudioBridges.AudioBridge.Stop | sipsimple/audio.py:201-215 | every connection between ports of the bridge and every connection of the multiplexer and demultiplexer goes, and no other |
| AudioBridges.AudioBridge.HandleNotification | sipsimple/audio.py:217-244 | a truthful slot change is followed, from a port of the bridge only |
| AudioBridges.RootAudioBridge.Add | sipsimple/audio.py:288-308 | the same on a root bridge, which has no multiplexer |
| AudioBridges.RootAudioBridge.Remove | sipsimple/audio.py:310-321 | the same for removal |
| AudioBridges.RootAudioBridge.HandleNotification | sipsimple/audio.py:323-342 | the same for slot changes |
| AudioBridges.AudioConference.constructor | sipsimple/audio.py:353-361 | a conference has the device on its bridge until it is put on hold |
| AudioBridges.AudioConference.MoveDevice | sipsimple/audio.py:363-375 | the device of a stream goes off or onto the bridge of the stream, and no other bridge changes |
| AudioBridges.AudioConference.MoveOnMain | sipsimple/audio.py:363-389 | a port goes off or onto the bridge of the conference, and no other bridge changes |
| AudioBridges.AudioConference.Add | sipsimple/audio.py:363-369 | a joining stream is a member, on the conference bridge, and its device off its own; all connections are those of that step, and every bridge on the mixer keeps its full mesh |
| AudioBridges.AudioConference.Remove | sipsimple/audio.py:371-375 | a leaving stream is no member, off the conference bridge, and its device back on its own; all connections are those of that step, and every bridge keeps its full mesh; leaving without being a member is an error |
| AudioBridges.AudioConference.Hold | sipsimple/audio.py:377-382 | after hold the conference is on hold and the device off its bridge; every bridge keeps its full mesh |
| AudioBridges.AudioConference.Unhold | sipsimple/audio.py:384-389 | after unhold the device is back; every bridge keeps its full mesh |
| AudioTree.EdgesAreMeshes | sipsimple/audio.py:109-118 | the connections of a tree of bridges are the meshes of its bridges |
| AudioTree.MeshesCarry | sipsimple/audio.py:109-118 | if every bridge keeps its mesh, the mixer carries exactly those connections |
| AudioTree.PathIsRoute | sipsimple/audio.py:115-118 | any path of connections to a leaf is the route through the tree |
| AudioTree.RouteIsPath | sipsimple/audio.py:115-118 | and that route is a path of connections |
| AudioTree.FlatBridge | sipsimple/audio.py:109-118 | every leaf is heard by every other leaf along exactly one path and by itself along none: the tree acts as one flat bridge |
| SettingsStore.UpdateEntry | sipsimple/configuration/__init__.py:192-212 | one entry of a dictionary: removed by a reset marker, replaced by a value, merged by a group, pruned when empty |
| SettingsStore.UpdateDict | sipsimple/configuration/__init__.py:192-212 | whatever order the entries are met in, the recursive update computes one merge of the two trees |
| SettingsStore.MergeBySetting | sipsimple/configuration/__init__.py:192-212 | the merge decides about every setting on its own: reset ones go, keys missing from an item container go, unmentioned keys of plain groups stay, all others take the new value |
| SettingsStore.MergeTwice | sipsimple/configuration/__init__.py:192-212 | merging the same data again changes nothing |
| SettingsStore.MergeKeepsCompact | sipsimple/configuration/__init__.py:192-212 | a merge leaves no empty subtree |
| SettingsStore.UpdateBySetting | sipsimple/configuration/__init__.py:182-190 | an update at a path decides about the settings of that object as the merge does |
| SettingsStore.UpdateElsewhere | sipsimple/configuration/__init__.py:182-190 | and leaves every other setting of the whole tree alone |
| SettingsStore.UpdateKeepsCompact | sipsimple/configuration/__init__.py:182-190 | an update leaves no empty subtree except at persistent keys |
| SettingsStore.PopKeepsCompact | sipsimple/configuration/__init__.py:171-180 | nor does taking an object out |
| SettingsStore.InsertKeepsCompact | sipsimple/configuration/__init__.py:163-169 | nor does putting it elsewhere |
| SettingsStore.RenameKeepsCompact | sipsimple/configuration/__init__.py:88-101 | an object moved to a free place leaves no empty subtree behind or there if and only if it holds something or its new path is persistent |
| SettingsStore.InsertedIsFound | sipsimple/configuration/__init__.py:155-169 | an object inserted in a free place is found there |
| SettingsStore.PoppedIsGone | sipsimple/configuration/__init__.py:155-180 | popping gives what was found and leaves nothing there |
| SettingsStore.PopElsewhere | sipsimple/configuration/__init__.py:171-180 | taking an object out leaves every setting outside it alone |
| SettingsStore.PopOthersFound | sipsimple/configuration/__init__.py:155-180 | and every object that neither is in it nor contains it is found as before |
| SettingsStore.PopFailsAsGet | sipsimple/configuration/__init__.py:155-180 | popping fails if and only if nothing is found, with the same error |
| SettingsStore.InsertElsewhere | sipsimple/configuration/__init__.py:163-169 | putting an object in leaves every setting outside its place alone |
| SettingsStore.InsertOthersFound | sipsimple/configuration/__init__.py:155-169 | and every object that neither is at that place nor contains it is found as before |
| SettingsStore.InsertBySetting | sipsimple/configuration/__init__.py:163-169 | at its place every setting is that of the object, or as it was where the object has nothing of the name |
| SettingsStore.RenameMovesOne | sipsimple/configuration/__init__.py:88-101 | a move takes the settings of one object to its new place and leaves all others alone |
| SettingsStore.GetIsSetting | sipsimple/configuration/__init__.py:155-161 | a value is found at a key if and only if that is the setting there |
| SettingsStore.GetHasSettings | sipsimple/configuration/__init__.py:155-161 | an object found has exactly the settings there are below its key |
| SettingsStore.StoringFails | sipsimple/configuration/__init__.py:163-190 | updating and inserting fail if and only if the path runs into a value |
| SettingsStore.ConfigurationManager.Start | sipsimple/configuration/__init__.py:58-75 | the store begins as the data the backend loads |
| SettingsStore.ConfigurationManager.Update | sipsimple/configuration/__init__.py:77-86 | the data becomes the update at the key |
| SettingsStore.ConfigurationManager.Rename | sipsimple/configuration/__init__.py:88-101 | an object is moved and every setting outside its old and new place stays, or it is not there and all stays; what is not a dictionary is lost and leaves an empty one |
| SettingsStore.ConfigurationManager.Delete | sipsimple/configuration/__init__.py:103-115 | the object is gone and every setting outside it stays, or it is not there and all stays |
| SettingsStore.ConfigurationManager.Get | sipsimple/configuration/__init__.py:117-130 | what is at the key, or the not-found error |
| SettingsStore.ConfigurationManager.SaveData | sipsimple/configuration/__init__.py:147-153 | what is given to the backend is the whole data |
| Persistence.ContentSurvives | sipsimple/configuration/__init__.py:432-468 | an accepted value is what its stored form is read back as |
| Persistence.FlagWords | sipsimple/configuration/__init__.py:432-459 | a text stands for a flag if and only if it is true, yes, on or 1, or false, no, off or 0, in small or capital letters, and flags are written as true and false |
| Persistence.SetStateBySetting | sipsimple/configuration/__init__.py:446-468 | taking stored data decides about every setting on its own: one whose stored value is acceptable takes it, and every other one stays as it is |
| Persistence.ItemsAreMentioned | sipsimple/configuration/__init__.py:769-773 | the items of a collection become exactly those stored, each made from what is stored for it |
| Persistence.StateSurvives | sipsimple/configuration/__init__.py:432-468 | the state of an object merged into any dictionary gives the object back, explicit settings explicit and defaulted ones defaulted |
| Persistence.NewObjectSurvives | sipsimple/configuration/__init__.py:609-634 | an object stored in a new place comes back as it was if and only if every collection item has an explicit setting |
| Persistence.ObjectFound | sipsimple/configuration/__init__.py:609-634 | an object saved in the store is created again as it was |
| Persistence.ObjectPersists | sipsimple/configuration/__init__.py:609-634 | and so through the file: state, update, save, load, get and set state restore it |
| SettingTracking.DirtyIsExact | sipsimple/configuration/__init__.py:415-497 | on every run of set, load, undo and report a setting is dirty exactly when its value differs from the one last reported |
| SettingTracking.ReportsRebuildTheValue | sipsimple/configuration/__init__.py:470-486 | an observer that follows the reports always has the value last reported, and the current one when there is nothing to report |
| SettingTracking.SetIsCurrent | sipsimple/configuration/__init__.py:415-430 | the value set is the one the setting has from then on and the one reported next; a reset brings back the default; a value that is not allowed changes nothing |
| SettingTracking.LoadIsReported | sipsimple/configuration/__init__.py:446-468 | a value loaded is the one the setting has and reported, so there is nothing to report |
| SettingTracking.UndoGoesBack | sipsimple/configuration/__init__.py:470-497 | whatever was set since the last report, undo brings the value reported then back; a report instead keeps the present one |
| SettingTracking.Setting.Assign | sipsimple/configuration/__init__.py:415-430 | a set or reset changes the track of one object only, and Nil is an error unless allowed |
| SettingTracking.Setting.Restore | sipsimple/configuration/__init__.py:446-468 | loading stored data makes it the reported value |
| SettingTracking.Setting.GetModified | sipsimple/configuration/__init__.py:470-486 | reports the change from the value last reported and forgets it |
| SettingTracking.Setting.UndoChange | sipsimple/configuration/__init__.py:491-497 | goes back to the value last reported |
| SettingTracking.IdsStaySeparate | sipsimple/configuration/__init__.py:272-319 | through any sequence of assignments, reports and undos no id currently or previously held by one object is held by another |
| SettingTracking.IdMoves | sipsimple/configuration/__init__.py:272-319 | setting an id fails if and only if another object has or had it; else the object has it and remembers the one reported; undo and report move these two and nothing else |
| SettingTracking.SettingsObjectID.Assign | sipsimple/configuration/__init__.py:272-293 | an id that another object holds or held is a duplicate error, and otherwise exactly the new id is taken |
| SettingTracking.SettingsObjectID.GetModified | sipsimple/configuration/__init__.py:298-311 | reporting gives up the old id |
| SettingTracking.SettingsObjectID.UndoChange | sipsimple/configuration/__init__.py:316-319 | undo takes the old id back and gives up the new one |
| MediaSlots.SlotsTakeFreeLinesFirst | sipsimple/session.py:1703-1716 | streams added get the disabled lines in ascending order and new lines only after them, and the offer grows by exactly the rest |
| MediaSlots.SlotsAreDistinct | sipsimple/session.py:1703-1716 | they get different lines if and only if none but the last brings a disabled line of its own |
| MediaSlots.OfferKeepsLiveLines | sipsimple/session.py:1703-1716 | an offer leaves every live line where it was and holds each new line at its index |
| MediaTalks.NewSlotsAreUnused | sipsimple/session.py:1703-1716 | new streams get lines no active stream has if and only if no active stream owns one of the disabled lines taken; a line of an active stream that a renegotiation disabled is handed out again |
| MediaTalks.ProposalStealsNothing | sipsimple/session.py:2357-2411 | streams are proposed only when every active stream keeps its line, its place and its media type, and at lines no active stream has |
| MediaTalks.VerdictIs | sipsimple/session.py:2357-2411 | streams are proposed if and only if the offer is valid, no line is missing, taken away or given another type, and some new line can be served; an offer is an update if and only if it is so and nothing is new |
| MediaTalks.AnswerIsTruthful | sipsimple/session.py:1552-1569 | an answer has one line for each one offered (section 6 of RFC 3264); exactly the lines of active and accepted streams are live; a line offered with port 0 is answered with port 0 |
| MediaTalks.AnswerHolds | sipsimple/session.py:1552-1569 | in an answer the line of every accepted stream is its own, with its port, kind, attributes, bandwidth and ICE flag, and its own address only with ICE; other lines there stay, and other new ones are disabled |
| MediaTalks.EventKeepsGood | sipsimple/session.py:1701-1833 | after any change the streams hold distinct lines live on both sides if and only if the change disabled no active stream's line; the number of lines never goes down (section 8 of RFC 3264) |
| MediaTalks.AddedAreActive | sipsimple/session.py:1672-1797 | the streams added become active, those whose line the peer took, when it answered every line and their media start; nobody leaves |
| MediaTalks.RemovedAreGone | sipsimple/session.py:1811-1876 | the streams removed leave and nobody else, and the offer disables their lines and no other |
| MediaTalks.RunKeepsGood | sipsimple/session.py:1701-1833 | the same over every run of additions, removals and accepted proposals |
| MediaTalks.CleanEventKeepsTight | sipsimple/session.py:1701-1833 | a change that goes through leaves no live line without a stream |
| MediaTalks.RunReusesLines | sipsimple/session.py:1701-1833 | over every run of changes that go through, the SDP is never longer than the largest number of streams active or proposed at one time |
| MediaTalks.ConnectedIsGood | sipsimple/session.py:1036-1042 | a session that connects starts with one line per stream offered and none without a stream |
| SessionStreams.FirstDisabled | sipsimple/session.py:1706-1710 | the first line with port 0, or the length |
| SessionStreams.Place | sipsimple/session.py:1703-1716 | the loop over proposed streams builds that offer and gives those indexes |
| SessionStreams.Start | sipsimple/session.py:1757-1771 | the streams whose line the peer accepted, or none when a line is missing from the answer |
| SessionStreams.Classify | sipsimple/session.py:2357-2416 | the verdict on an offer: 488 for a shorter one, an invalid update, or adding and removing at once; else the lines to propose |
| SessionStreams.BuildAnswer | sipsimple/session.py:1548-1569 | the answer line by line, appending only at the current length, with the own line of every accepted stream at its index |
| SessionStreams.AnswerInvite | sipsimple/session.py:1304-1319 | in the answer to a first INVITE the line of every accepted stream is its own, at its index, and all others are disabled |
| SessionStreams.LinesAtHolds | sipsimple/session.py:1552-1552 | the map from index to stream holds every stream accepted |
| SessionStreams.OwnLines | sipsimple/session.py:1552-1569 | when no two accepted streams share a line, each has its own line at its index in the answer |
| SessionStreams.FirstOfferedHolds | sipsimple/session.py:1036-1042 | in a first offer every stream has its own line, with its own address if it has ICE and an address |
| SessionStreams.Session.Connect | sipsimple/session.py:1036-1113 | streams are numbered by position and those with a live remote line become active |
| SessionStreams.Session.AddStreams | sipsimple/session.py:1672-1797 | the new state for every outcome: refused, agreed, agreed with a line missing, and agreed with media failing |
| SessionStreams.Session.RemoveStreams | sipsimple/session.py:1811-1876 | the requested active streams leave whatever the peer answers, the others stay in their order, and exactly the lines of those that leave are disabled |
| SessionStreams.RemovedSlots | sipsimple/session.py:1811-1876 | when no two streams share a line, the lines that stay are those the run theorems speak of |
| SessionStreams.Session.ReceiveProposal | sipsimple/session.py:2355-2416 | streams are made for exactly the lines of the verdict, one each |
| SessionStreams.Session.AcceptProposal | sipsimple/session.py:1530-1633 | the answer has the own line of each accepted stream at its index; once agreed on, these are active at their lines besides those there were |
| Subscribers.EveryRun | sipsimple/account/subscription.py:94-311 | on every interleaving: while active, a subscribe is under way or queued behind every cancel, or a thread or timer is there; once inactive with all commands handled, no thread is left, and no timer unless a thread failed while it was being killed, with a timer ever since |
| Subscribers.LateFailureLeavesTimer | sipsimple/account/subscription.py:159-173 | a thread that fails while it is being killed leaves a timer behind |
| Subscribers.QuietStaysQuiet | sipsimple/account/subscription.py:94-311 | a leftover timer is harmless: without an activation no run starts a thread again |
| Subscribers.LastCommandWins | sipsimple/account/subscription.py:143-173 | left to themselves the queued commands have the effect of the last of them: a thread that tries to subscribe, none, or none and no loop |
| Subscribers.StartLeadsTo | sipsimple/account/subscription.py:94-105 | a start makes the subscriber take commands, unless its loop still runs |
| Subscribers.ActivateLeadsTo | sipsimple/account/subscription.py:123-129 | activating leads to a thread that tries to subscribe, whatever was queued before |
| Subscribers.DeactivateLeadsTo | sipsimple/account/subscription.py:131-137 | deactivating leads to no thread, with the loop still there |
| Subscribers.StopLeadsTo | sipsimple/account/subscription.py:106-121 | stopping leads to no thread and no loop |
| Subscribers.ResubscribeLeadsTo | sipsimple/account/subscription.py:139-141 | asking again while active, and only then, leads to a new thread |
| Subscribers.FailureIsRetried | sipsimple/account/subscription.py:301-311 | a thread that fails leaves one new timer; when that fires, an active subscriber comes to try again and an inactive one does not |
| Subscribers.EndIsFollowed | sipsimple/account/subscription.py:254-270 | when a subscription ends, an active subscriber comes to try again and an inactive one does not |
| Subscribers.EndingOnlyEnds | sipsimple/account/subscription.py:283-300 | a thread told to end for good can no longer subscribe, fail or be followed by another |
| Subscribers.TakenCommandWaits | sipsimple/account/subscription.py:149-173 | a command cancels the known timer, waits for a live thread, and goes on once that has ended |
| Subscribers.Subscriber.constructor | sipsimple/account/subscription.py:66-76 | a new subscriber is stopped, with nothing pending |
| Subscribers.Subscriber.Start | sipsimple/account/subscription.py:94-105 | starting twice does nothing the second time |
| Subscribers.Subscriber.Stop | sipsimple/account/subscription.py:106-121 | stopping makes inactive and queues a terminate |
| Subscribers.Subscriber.Activate | sipsimple/account/subscription.py:123-129 | queues a subscribe, or is an error when not started |
| Subscribers.Subscriber.Deactivate | sipsimple/account/subscription.py:131-137 | queues an unsubscribe, or is an error when not started |
| Subscribers.Subscriber.Resubscribe | sipsimple/account/subscription.py:139-141 | queues a subscribe only while active |
| Subscribers.Subscriber.TakeCommand | sipsimple/account/subscription.py:143-173 | every command cancels the known timer first and waits for a live thread to end |
| Subscribers.Subscriber.ResumeHandler | sipsimple/account/subscription.py:149-173 | the rest of a handler once the thread has ended |
| Subscribers.Subscriber.WorkerFailed | sipsimple/account/subscription.py:301-311 | a failure sets one retry timer |
| Subscribers.Subscriber.WorkerEnded | sipsimple/account/subscription.py:254-270 | the end of a subscription queues a subscribe only while active |
| Subscribers.Subscriber.TimerFired | sipsimple/account/subscription.py:302-305 | a timer queues a subscribe only while active, and the subscriber forgets its timer |
| Registrars.EveryRun | sipsimple/account/registration.py:58-256 | on every run: while active a register is under way or queued behind every cancel, or it is registered, or a retry waits; once inactive with all commands handled there is no registration and no timer |
| Registrars.LastCommandWins | sipsimple/account/registration.py:101-256 | while the server answers, the queued commands have the effect of the last of them: a registration, none, or none and no loop |
| Registrars.StartLeadsTo | sipsimple/account/registration.py:58-68 | a start of an account that registers leads to a registration, of another one to none, unless the loop still runs |
| Registrars.ActivateLeadsTo | sipsimple/account/registration.py:84-88 | activating leads to a registration, whatever was queued before |
| Registrars.DeactivateLeadsTo | sipsimple/account/registration.py:90-94 | deactivating leads to no registration, with the loop still there |
| Registrars.StopLeadsTo | sipsimple/account/registration.py:70-82 | stopping leads to no registration and no loop |
| Registrars.ReregisterLeadsTo | sipsimple/account/registration.py:96-99 | registering again while active, and only then, ends the registration and leads to a new one |
| Registrars.FailureIsRetried | sipsimple/account/registration.py:131-225 | every failed attempt leaves no registration and a retry, after once to twice a wait that doubles up to 30 when nothing was found or no route worked; when it fires, an active registrar comes to register and an inactive one does not |
| Registrars.TakenCommandWaits | sipsimple/account/registration.py:107-256 | a command cancels the retry; a register is answered before the next one, an unregister waits only for a live registration |
| Registrars.EveryWait | sipsimple/account/registration.py:131-225 | on every run both waits are the power of two for the failures in a row so far, held at 30, and a random delay is between 1 and 60 seconds |
| Registrars.WaitsKept | sipsimple/account/registration.py:131-225 | a pending retry waits between once and twice the wait before it doubled |
| Registrars.Registrar.constructor | sipsimple/account/registration.py:45-56 | a new registrar is stopped and waits 1 second |
| Registrars.Registrar.Start | sipsimple/account/registration.py:58-67 | starting activates when the account registers |
| Registrars.Registrar.Stop | sipsimple/account/registration.py:70-82 | stopping makes inactive and queues a terminate |
| Registrars.Registrar.Activate | sipsimple/account/registration.py:84-88 | queues a register, or is an error when not started |
| Registrars.Registrar.Deactivate | sipsimple/account/registration.py:90-94 | queues an unregister, or is an error when not started |
| Registrars.Registrar.Reregister | sipsimple/account/registration.py:96-99 | queues an unregister and a register together, only while active |
| Registrars.Registrar.TakeCommand | sipsimple/account/registration.py:101-122 | every command cancels the timer; an unregister waits only for a live registration |
| Registrars.Registrar.RegistrationEnded | sipsimple/account/registration.py:227-256 | an unregister lets the registration go whether or not the server confirmed |
| Registrars.Registrar.LookupFailed | sipsimple/account/registration.py:133-136 | the lookup wait doubles up to 30 |
| Registrars.Registrar.RoutesFailed | sipsimple/account/registration.py:209-225 | the registration wait doubles up to 30, and the lookup wait starts over |
| Registrars.Registrar.Succeeded | sipsimple/account/registration.py:181-208 | both waits start over |
| Registrars.Registrar.TimerFired | sipsimple/account/registration.py:218-222 | a retry queues a register only while active |
| Applications.NoStopIsLost | sipsimple/application.py:87-299 | in every interleaving, a stop requested while starting or started finds the application stopping or stopped once the boot is over, whether the engine then reports that it started or fails to, and leads to its end with one announcement |
| Applications.StartBegins | sipsimple/application.py:87-93 | an application that was never started begins to start, and any other stays as it is |
| Applications.BootStarts | sipsimple/application.py:87-299 | after any run without a stop that finds the application starting, finishing the boot finds it started with its engine up and no end announced |
| Applications.StoppingEnds | sipsimple/application.py:122-151 | an application that is stopping comes to be stopped, with one announcement |
| Applications.StopEnds | sipsimple/application.py:122-132 | a stop of a started application leads to its end, with one announcement |
| Applications.FailureEnds | sipsimple/application.py:353-358 | so does a failure of its engine |
| Applications.EveryRun | sipsimple/application.py:87-299 | in every interleaving, those included in which the engine fails to start, the state only moves forward, the end is announced at most once, and it was announced when the application is stopped |
| Applications.EngineNeverStarts | sipsimple/application.py:353-358 | an engine that fails to start ends the application: one announcement, and the reactor returns |
| Applications.FailureDuringBoot | sipsimple/application.py:353-358 | in every state in which the engine fails after it reported that it started and before the boot is over, the boot then moves the application back to started or announces the end twice: the condition of the theorems above is exact |
| Applications.StepKeeps | sipsimple/application.py:87-299 | what every single step keeps |
| Applications.Application.constructor | sipsimple/application.py:66-82 | before the start there is no state and no pending stop |
| Applications.Application.Start | sipsimple/application.py:87-120 | only an application that never started can be started |
| Applications.Application.Stop | sipsimple/application.py:122-132 | remembered while starting, carried out when started, ignored otherwise |
| Applications.Application.EnterReactor | sipsimple/application.py:134-147 | the first look at a pending stop, before the reactor runs |
| Applications.Application.EngineIsUp | sipsimple/application.py:350-351 | the engine reports that it started, once |
| Applications.Application.EngineDidStart | sipsimple/application.py:197-213 | the second, once the engine has reported |
| Applications.Application.FinishInitializing | sipsimple/application.py:292-294 | the last, together with becoming started |
| Applications.Application.AnnounceStart | sipsimple/application.py:296-299 | a stop that came during the boot is carried out after the start is announced |
| Applications.Application.LeaveReactor | sipsimple/application.py:147-151 | the application is stopped when the reactor has returned or was never run |
| Applications.Application.EngineDidFail | sipsimple/application.py:353-358 | an engine failure moves to stopping unless already there |
| XmlOrder.InsertedIsStableSort | sipsimple/payloads/__init__.py:659-670 | inserting keeps the children the stable sort, by schema rank, of what arrived |
| XmlOrder.WithoutIsStableSort | sipsimple/payloads/__init__.py:931-936 | so does removing |
| XmlLists.IdsAreUnique | sipsimple/payloads/__init__.py:910-929 | two items of one class never share an id |
| XmlLists.ChangeAgrees | sipsimple/payloads/__init__.py:910-936 | an addition, replacement, removal or child assignment keeps both indexes and the child attributes in agreement with the children |
| XmlLists.AddedIsHeld | sipsimple/payloads/__init__.py:910-929 | an item added is a child, the last of its rank if new, and found by its element and by class and id; one with the same class and id goes; nothing else changes |
| XmlLists.RemovedIsGone | sipsimple/payloads/__init__.py:931-936 | an item removed is no child and found by neither index, and everything else stays in its order |
| XmlLists.AssignedIsSet | sipsimple/payloads/__init__.py:310-328 | a value assigned is the child attribute and a child, the value there was is neither, and nothing else changes |
| XmlLists.RunAgrees | sipsimple/payloads/__init__.py:910-944 | so does every run from an empty list, every child being held by an index, in schema order and in order of insertion within a rank |
| XmlLists.KeptAreFirsts | sipsimple/payloads/__init__.py:886-903 | of elements with the same class and id the first is kept and the others are removed |
| XmlLists.XmlList.constructor | sipsimple/payloads/__init__.py:818-824 | a new list is empty |
| XmlLists.XmlList.InsertElement | sipsimple/payloads/__init__.py:659-670 | an element goes before the first of higher rank, unless it is there |
| XmlLists.XmlList.Add | sipsimple/payloads/__init__.py:910-929 | the new state for every case: wrong class, same item, replaced id, new item |
| XmlLists.XmlList.Remove | sipsimple/payloads/__init__.py:931-936 | element and index entries go together; an element that is not a child, and a child that an index does not hold as an item, are errors, the latter after the element was taken out |
| XmlLists.XmlList.Clear | sipsimple/payloads/__init__.py:942-944 | exactly the items go from the children and both indexes |
| XmlLists.XmlList.Assign | sipsimple/payloads/__init__.py:310-328 | the old child goes, the new one is inserted |
| XmlLists.XmlList.Parse | sipsimple/payloads/__init__.py:886-903 | reading a document makes the indexes agree with the children kept |
| ResourceLists.FindParent | sipsimple/payloads/resourcelists.py:253-268 | the breadth-first loop with its set of lists seen ends, and finds what the order of the search defines |
| ResourceLists.FoundIsParent | sipsimple/payloads/resourcelists.py:253-268 | it gives the list an element is in or nothing, and nothing for what is not in the document |
| ResourceLists.EveryParentIsFound | sipsimple/payloads/resourcelists.py:253-268 | it finds the list of every element if and only if no two named lists that have elements compare equal |
| ResourceLists.TwinsHide | sipsimple/payloads/resourcelists.py:253-268 | of two named lists that compare equal, the elements of one are not found |
| ResourceLists.SearchIsBreadthFirst | sipsimple/payloads/resourcelists.py:253-268 | the search looks into no list before all those seen that are less deep |
| ResourceLists.PathResolves | sipsimple/payloads/resourcelists.py:229-251 | the path made for an element leads to that element and no other, when ids are unique as section 3 of RFC 4826 has it and no two sibling lists without names compare equal |
| ResourceLists.PathsResolve | sipsimple/payloads/resourcelists.py:229-251 | every path leads to its element alone if and only if no two sibling lists without names compare equal |
| ResourceLists.PositionCounts | sipsimple/payloads/resourcelists.py:238-242 | the step to a list without a name is its position among the sibling lists, counted from 1 |
| ResourceLists.GetXPath | sipsimple/payloads/resourcelists.py:202-251 | gives the path of every element of the document and nothing for any other, in every document whose parents are all found |
| StableSorts.SortedIsStable | sipsimple/lookup.py:421-421 | the sort by two keys permutes, orders and keeps the order of equal keys |
| Lookups.LookupAddresses | sipsimple/lookup.py:376-395 | the addresses of every host from the additional section or a query, none for a failed one, and a timeout when one times out |
| Lookups.LookupServers | sipsimple/lookup.py:398-422 | the servers of all records and addresses, sorted |
| Lookups.LookupService | sipsimple/lookup.py:398-422 | from the additional section when it is there, else by a query |
| Lookups.LookupPointers | sipsimple/lookup.py:425-442 | only pointers with a service asked for, sorted |
| Lookups.ServicesInOrder | sipsimple/lookup.py:398-422 | servers are a permutation of all pairs of a record of the reply or additional section and an address of its target, by priority and then descending weight, and otherwise in the order they came |
| Lookups.PointersInOrder | sipsimple/lookup.py:425-442 | hops are those of all pointers with a service asked for and the servers of each, by order and then preference, and those of one rank keep the order of the pointers and of the servers of each |
| Lookups.RoutesAreAllowed | sipsimple/lookup.py:223-332 | whatever the DNS answers, a lookup gives a non-empty list or an error; every route uses a supported transport, and TLS for a SIPS URI (section 4.1 of RFC 3263) |
| Lookups.RoutesFollowUri | sipsimple/lookup.py:252-292 | a port in the URI is the port of every route, and a transport its transport |
| Lookups.RefusedFirst | sipsimple/lookup.py:245-298 | a lookup without transports, with unknown ones, or of a URI whose transport is not supported or not TLS for a SIPS URI, is an error before anything is looked up |
| Lookups.DirectRoutes | sipsimple/lookup.py:253-272 | a host that is an address is the route itself, and with a port in the URI the routes are the addresses of the host |
| Lookups.RoutesForTransport | sipsimple/lookup.py:275-291 | with a transport in the URI the routes are its servers in order, and without any the addresses of the host at port 5061 for TLS and 5060 otherwise |
| Lookups.RoutesInFull | sipsimple/lookup.py:294-328 | with neither, the routes are the hops pointers lead to, over the transport each service stands for; without any, the servers of each transport in turn; and only without these the addresses of the host |
| Lookups.ServicesTimeOut | sipsimple/lookup.py:398-422 | looking up a service times out if and only if its query does or that of the addresses of a target |
| Lookups.PointersTimeOut | sipsimple/lookup.py:425-442 | looking up pointers times out if and only if its query does or that of the servers of a pointer with a service asked for |
| Lookups.TransportsInAnyCase | sipsimple/lookup.py:247-250 | the supported transports are read in their order, in small or capital letters |
| LetterCase.LowerSpells | sipsimple/lookup.py:247-247 | lowering a text gives a word without capitals if and only if the text spells that word in small or capital letters |
| Lookups.LookupSipProxy | sipsimple/lookup.py:223-332 | the branches of the lookup compute the routes that the lemmas above describe |
| Lookups.FullLookup | sipsimple/lookup.py:294-328 | the loop over the transports computes the routes of a URI with neither port nor transport, pointers first |
| AddressBooks.Save | sipsimple/addressbook.py:760-828 | what a save after a reload writes to which account: to the origin only an update of an object that differs from its copy |
| AddressBooks.TakeOver | sipsimple/addressbook.py:1250-1326 | every remote object is taken over and saved, others are left alone |
| AddressBooks.Prune | sipsimple/addressbook.py:1328-1334 | objects the remote document does not have go, and everyone but the origin is told |
| AddressBooks.OriginIsSpared | sipsimple/addressbook.py:760-828 | a write to the originating account only ever updates an object that differs from its copy, the order of addresses and members counted |
| AddressBooks.OriginHears | sipsimple/addressbook.py:760-828 | the originating account is written to about an object if and only if that was saved before, changed, and differs from its copy once taken over |
| AddressBooks.ContactMatches | sipsimple/addressbook.py:1250-1285 | a contact taken over equals the remote contact if and only if that gives every attribute, has its default among its addresses, and lists them in the order of their ids |
| AddressBooks.ContactTaken | sipsimple/addressbook.py:1250-1285 | a contact taken over has the remote addresses and attributes, its addresses in the order of their ids |
| AddressBooks.GroupMatches | sipsimple/addressbook.py:1287-1306 | a group taken over has the remote members, and equals the remote group if and only if that gives every attribute and lists the members in the order of their ids |
| AddressBooks.PolicyMatches | sipsimple/addressbook.py:1308-1326 | a policy taken over equals the remote one if and only if that gives every attribute |
| AddressBooks.GroupHeard | sipsimple/addressbook.py:450-516 | the originating account is spared a write about a changed group if and only if its document gives every attribute and lists the members in the order of their ids |
| AddressBooks.ContactHeard | sipsimple/addressbook.py:760-828 | the same of a contact and its addresses |
| AddressBooks.OrderCounts | sipsimple/addressbook.py:498-516 | a group that held a and takes over the members b, a in this order: the originating account is written to although it listed just that |
| AddressBooks.MergesOnce | sipsimple/addressbook.py:1250-1326 | taking the same contact, group or policy over again changes nothing |
| AddressBooks.SecondReload | sipsimple/addressbook.py:1250-1334 | running the reconciliation again with the same document changes nothing and writes nothing |
| AddressBooks.GroupsAfterReload | sipsimple/addressbook.py:858-860 | after a reload no group has a member that the document does not have, so deleting a contact takes it out of no group |
| AddressBooks.AddressbookManager.Reload | sipsimple/addressbook.py:1225-1334 | after a reload the ids of contacts, groups and policies are the remote ones, each holding what the document says and saved; the writes are exactly those of objects taken over and, to every account but the origin, of those that are gone; it fails exactly when a group gains a member whose contact could not be made |
| AddressBooks.EveryoneElseIsTold | sipsimple/addressbook.py:760-862 | every account but the origin is told of every object that is new, changed or gone |
| NameOrder.SortedIsSame | sipsimple/addressbook.py:357-358 | a list of ids is what sorting them gives if and only if it is in order |
| NameOrder.FirstDifference | sipsimple/addressbook.py:357-358 | names are in order as their first different characters are, a name before those it starts |

## Left out

- Encodings: lines are texts, and decoding a file from UTF-8 and encoding it back is taken to be the identity. Line
  numbers in error messages are not modelled.
- Files: a missing file, I/O errors and the temporary file that `save` renames are not modelled, nor are other values
  in a tree than None, strings, lists of strings and dictionaries, beyond that they are refused.
- SettingsStore.UpdateDict: nested dictionaries are values that the methods return, so aliasing between a stored
  subtree and a caller is not modelled.
- SettingsStore.ConfigurationManager.Rename: an empty string or list counts as not a dictionary, as do lists of texts
  of two characters, which a dictionary would take for its entries.
- Persistence.ContentSurvives: flags, texts and lists of texts stand for all setting types; other conversions of
  setting values are not modelled, and a group stored where a plain setting is expected counts as not accepted.
- SettingTracking.IdsStaySeparate: immutable ids and objects that are garbage collected are not modelled.
- Runtime and correlated settings, and the change reports of item collections (`ItemMap.get_modified`).
- Sha1.Context.Digest: the block counter is a number kept below 2 to the 64; `BitsAreCount` relates it to the 64-bit
  word. The constants, which are C longs, only enter sums cut to 32 bits.
- AudioBridges.Reconnect: `WavePlayer` announces its first slot with no old slot although its port may have been on a
  bridge before; such a notification is not truthful and is excluded.
- Weak references and ports that are garbage collected while on a bridge, locks of the audio classes, and the posting
  of notifications by bridges.
- AudioConferences.EveryRun: starting and stopping the bridge of a stream are not among the commands;
  `AudioBridge.Stop` says what stopping does to the mixer.
- AudioConferences.ConferenceIsFlat: a port of a member's bridge counts as a leaf, also one that is a bridge itself.
- SessionStreams.Session.RemoveStreams: a session that ends because the removal times out or the call is disconnected
  is not modelled further.
- MediaTalks.RunReusesLines: a removal the peer refuses, and streams whose media cannot start after the answer was
  agreed on, leave a line that is never used again; the bound is stated for runs without these.
- An offer that only changes, holds or removes lines already there (sipsimple/session.py:2417-2448), re-INVITEs
  without an offer, hold and unhold, session teardown, and `_reinvite_after_ice`, which indexes by list position.
- SessionStreams.AnswerInvite: of `accept` only the answer is modelled; an INVITE without an offer is connected as
  `Session.Connect` is.
- SessionStreams.Session.AddStreams: streams are taken in the order requested, one of the orders the set may have.
- Subscribers.EveryRun: a thread that is killed is taken to have started, and nothing calls `start` while `stop`
  waits. The signals to waiting callers, the SUBSCRIBE transaction itself and the length of retry delays are not
  modelled.
- Registrars.EveryRun: a live registration is one the server accepted; that it asks for a refresh before it expires is
  left to the core. GRUU handling and notifications are not modelled.
- Applications.NoStopIsLost: loading the configuration is taken to succeed, and the subsystems stopped at the end are
  not modelled.
- XmlLists.ChangeAgrees: the flags that mark elements as modified are not modelled, and a value of another class
  assigned to a child attribute is not converted.
- XmlLists.XmlList.Parse: child attributes are taken to be read already; a document may hold elements of other kinds.
- ResourceLists.GetXPath: stated for documents in which the parent of every element is found, by `EveryParentIsFound`,
  as with others following the recorded parents may not end; quoting and namespace prefixes in the text of the path
  are not modelled.
- Lookups.LookupSipProxy: the DNS answers the same query the same way within one lookup; the cache, the time limit of
  the resolver, traces, and looking up STUN, MSRP relay and XCAP servers are not modelled. That a host is an IPv4
  address is a flag of the URI.
- AddressBooks.Save: the pieces in which a changed contact is written are one write per account; the start of a reload
  that migrates old data, and saving to the local configuration, are not modelled.
- AddressBooks.AddressbookManager.Reload: cards are read with unregistered attributes already dropped; objects are
  values in the manager's maps. A document lists only contacts of its own as members of its groups, as reading it
  ensures (sipsimple/account/xcap/__init__.py:481). After an error for a group member the partial state is not
  described.
- Conference handling, publication, presence rules and the remaining payload classes have the shapes of the machines
  above or are declarative; wave players, TTY tones, video devices, logging and build scripts are wrappers.
