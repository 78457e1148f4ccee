# Verified models of the core of `zutils/base`

This project models the parts of `zutils/base` that hold algorithms or protocols and proves what they
promise.  Each component is a module, or a pair: one with the operations on values, their runs and
the theorems, and one with the classes that work in place, each method tied to the operation on
values that it performs.  `dafny verify dfyconfig.toml` checks everything.

| file | what it models |
|---|---|
| `ObserverList.dfy` | the tombstoning observer vector with nested iterators |
| `ObserverListThreadSafe.dfy` | the thread-safe observer list: a map of per-thread contexts, posted tasks, two places that free |
| `CommandLineQuoting.dfy` | Windows argument quoting, and the documented `CommandLineToArgvW` splitter as its inverse |
| `CommandLine.dfy` | the token vector, its divider and the switch map |
| `MD5.dfy` | the unrolled transformation and the incremental context, against RFC 1321 |
| `LazyInstance.dfy` | the once-only creation protocol on one shared word |
| `PickleFormat.dfy`, `Pickle.dfy` | the aligned growing buffer, its reader, and the framing of a stream |
| `PathService.dfy` | the cache over overrides and providers that may ask for other keys |
| `IdMapTable.dfy`, `IdMap.dfy` | the map with deferred removal and pointer ownership |
| `RandUtil.dfy` | rejection sampling |
| `Environment.dfy` | altering an environment and packing it into one block |
| `Memory.dfy`, `Sequences.dfy`, `Options.dfy` | copying blocks, searching sequences, optional values |

Concurrent protocols are state machines: each access to shared state is one step, and the theorems
hold for every interleaving, under sequential consistency.

## Findings

Properties that do not hold as one might expect, each with an input and the exact condition:

- A quote in a switch name is printed bare by `GetArgumentsString` and does not survive splitting
  (`QuoteInSwitchNameIsLost`).  `ArgumentsStringRoundTrip` gives the exact condition for the whole
  string, and `QuotingRoundTrip` the one for plain arguments: none empty, and none with a tab but no
  space, backslash or quote, because a tab alone does not cause quoting (command_line.cc:111).
- `RandInt` adds a drawn number, converted to `int`, to `min` (rand_util.cc:22).  That signed addition
  leaves the range of `int` exactly when the number is above 2^31 - 1, so it can overflow exactly for
  ranges of more than 2^31 numbers (`SumOverflows`).  With wraparound the result is right.
- `IDMap::Clear` has no effect on a map that does not own its pointers and is not being iterated
  (id_map.h:97-100, 216); `ClearEmpties` says exactly when it empties the map.
- `PathService::RegisterProvider` leaves the cache alone, so a cached answer can go stale (`StaleReply`).
  The cache stays right exactly if no remembered answer changes (`RegisterProvider`); a remembered key
  whose answer does change is answered wrongly from then on (`Disturbed`).  Neither the answer for a key
  nor those it rests on change exactly if the new provider gives no path for any of these keys
  (`QuietIsSame`), as is always so when only answerable keys were asked (`GroundedIsQuiet`).
- A switch name with an equals sign reads back under another key, and a bare prefix without a value is no
  switch when read again: the map and the tokens of a command line agree exactly if none of the first is
  appended and the last switch with an empty name has a value (`SwitchMapAgrees`).
- A change that sets a key with an equals sign adds a line that reads back under what precedes the sign,
  so that key is not set (`AlteredMeaning`), and doing it again adds the line once more unless the part
  before the sign is itself changed (`Idempotent`).  Both say exactly when this happens.
- On Posix `GetArgumentsString` drops an equals sign that ends a switch without a value
  (`PosixArguments`).
- Running `InitFromArgv` on the vector it produced gives the same command line exactly under the
  condition in `ReinitReproduces`.
- The comment in md5.cc:220 says the bit count is appended most significant first; the code, like
  RFC 1321, appends the low word first, each word low byte first.  The model follows the code.

## Model

| member | source | states |
|---|---|---|
| `ObserverLists.RunRefinesPlainList` | zutils/base/observer_list.h:155-204 | in every run with any iterators, the vector without its nulls is the list with immediate removal, and between iterations it is exactly that list |
| `ObserverLists.HandedOutIsRegistered` | zutils/base/observer_list.h:143-176 | an iterator only ever returns an observer registered at that moment |
| `ObserverLists.CompletedIteration` | zutils/base/observer_list.h:126-153 | whatever is added, removed, cleared or iterated meanwhile, slots are visited in order and at most once; a finished iterator has visited every surviving slot, later additions only under NOTIFY_ALL, and called each observer never removed exactly once |
| `ObserverLists.UnremovedKeepsSlot` | zutils/base/observer_list.h:165-176 | while an iterator lives an observer that is not removed or cleared keeps its slot |
| `ObserverLists.ObserverList.AddObserver` | zutils/base/observer_list.h:155-163 | adding in place is adding to the list value; an observer already there is not added again |
| `ObserverLists.ObserverList.RemoveObserver` | zutils/base/observer_list.h:165-176 | removing nulls the slot while iterating and erases it otherwise |
| `ObserverLists.ObserverList.ClearAll` | zutils/base/observer_list.h:187-197 | clearing nulls every slot while iterating and empties the vector otherwise |
| `ObserverLists.ObserverList.Compact` | zutils/base/observer_list.h:199-204 | compaction leaves exactly the observers still there, in order |
| `ObserverLists.Iterator.GetNext` | zutils/base/observer_list.h:143-153 | returns the next slot not nulled below the limit, and none when the list is gone |
| `ObserverLists.Iterator.End` | zutils/base/observer_list.h:137-141 | the last iterator to go compacts the list |
| `ThreadSafeObserverLists.StepKeepsInv` | zutils/base/observer_list_threadsafe.h:108-157 | every step of every thread keeps the protocol's invariant; in particular none touches a freed context |
| `ThreadSafeObserverLists.EveryRunIsMemorySafe` | zutils/base/observer_list_threadsafe.h:242-280 | in every interleaving nothing touches a freed context or frees one twice, mapped contexts are live and their thread's, a live unmapped one is being worked on by its own thread, and destruction leaves none behind |
| `ThreadSafeObserverLists.AddReturns` | zutils/base/observer_list_threadsafe.h:108-124 | once an AddObserver on a thread with a message loop has returned, its observer is registered there |
| `ThreadSafeObserverLists.RemoveReturns` | zutils/base/observer_list_threadsafe.h:130-157 | once a RemoveObserver has returned, its observer is not registered on that thread |
| `ThreadSafeObserverLists.AddedAndRemoved` | zutils/base/observer_list_threadsafe.h:108-157 | a concrete run: an observer added and removed again leaves its thread's context deleted and nothing to post to |
| `ThreadSafeObserverLists.RegisteredSince` | zutils/base/observer_list_threadsafe.h:108-157 | an observer registered at some state was added by an AddObserver of that very thread that has returned, and every RemoveObserver of it that has returned did so before that AddObserver began |
| `ThreadSafeObserverLists.RegisteredExactly` | zutils/base/observer_list_threadsafe.h:108-157 | when no removal of it is going on, an observer is registered if and only if that is so |
| `ThreadSafeObserverLists.CalledOnlyWhileRegistered` | zutils/base/observer_list_threadsafe.h:242-264 | in every run each callback of an observer is made by a thread where an AddObserver of it has returned, with no RemoveObserver of it returned since that began |
| `ThreadSafeObserverLists.CalledExactlyOnce` | zutils/base/observer_list_threadsafe.h:226-264 | an observer registered from a Notify until its thread is through with the posted task has been called exactly once for that Notify |
| `ThreadSafeObserverLists.RegisteredIsMapped` | zutils/base/observer_list_threadsafe.h:108-128 | a thread with a registered observer not being removed is in the map, so Notify reaches it |
| `ThreadSafeObserverLists.IdleIsMapped` | zutils/base/observer_list_threadsafe.h:142-157 | a thread with no unfinished call is in the map if and only if it has registered an observer |
| `CommandLineQuoting.Quote` | zutils/base/command_line.cc:108-148 | the in-place quoting loop gives the quoted form, defined by recursion over runs of backslashes |
| `CommandLineQuoting.QuotedIfNeeded` | zutils/base/command_line.cc:111-114 | an argument is printed as it is if and only if it has no space, backslash or quote |
| `CommandLineQuoting.SplitQuoted` | zutils/base/command_line.cc:108-148 | what is quoted is read back by the splitter as just that text, whatever follows |
| `CommandLineQuoting.LineRoundTrip` | zutils/base/command_line.cc:263-291 | a printed line of switches and arguments splits back into its tokens if and only if every piece is good |
| `CommandLineQuoting.QuotingRoundTrip` | zutils/base/command_line.cc:108-148 | quoted arguments joined by spaces split back into the arguments if and only if none is empty and each with a tab is quoted |
| `CommandLines.GetSwitchPrefixLength` | zutils/base/command_line.cc:45-52 | 2 for "--", else 1 for "-" and on Windows for "/" unless disabled, else 0 |
| `CommandLines.CommandLine.InitFromArgv` | zutils/base/command_line.cc:242-248 | the new vector, divider and map are those of reading the trimmed tokens from nothing |
| `CommandLines.TrimExact` | zutils/base/strings/string_util.cc:161-190 | a trimmed string is the one string without white space at its ends that, with white space before and behind, is the original |
| `CommandLines.SpacesExact` | zutils/base/strings/string_util_constants.cc:9-53 | the white space is exactly that of the two tables |
| `CommandLines.PaddingIsIgnored` | zutils/base/command_line.cc:76-78 | white space around the program and the arguments makes no difference |
| `CommandLines.InitReads` | zutils/base/command_line.cc:242-248 | a trimmed vector is read as its program and the stable partition of the rest |
| `CommandLines.CommandLine.AppendSwitchNative` | zutils/base/command_line.cc:340-357 | the switch goes in before the arguments and the map takes its value under the bare name |
| `CommandLines.TokenText` | zutils/base/command_line.cc:342-354 | its token is its own prefix, or two hyphens if it has none, the key, and an equals sign and the value if there is one |
| `CommandLines.SwitchIsFound` | zutils/base/command_line.cc:301-343 | an appended switch is found, with its value, under its name without prefix, on Windows in any ASCII case, and under no other name |
| `CommandLines.CommandLine.GetSwitchValueNative` | zutils/base/command_line.cc:324-329 | looks the switch up, an absent one having an empty value |
| `CommandLines.CommandLine.GetArgumentsString` | zutils/base/command_line.cc:263-291 | the loop prints every token after the program as specified, switches up to the terminator |
| `CommandLines.PosixArguments` | zutils/base/command_line.cc:263-291 | on Posix the arguments string is the tokens joined by single spaces, save that a switch before the terminator loses a bare equals sign at its end; it is just the tokens joined if and only if there is no such switch |
| `CommandLines.ArgumentsStringRoundTrip` | zutils/base/command_line.cc:263-291 | on Windows the arguments string splits back into the tokens if and only if every token is good: no empty argument, no blank or quote in a switch name, no bare trailing sign, every tab quoted |
| `CommandLines.QuoteInSwitchNameIsLost` | zutils/base/command_line.cc:273-275 | the arguments string of a switch with a quote in its name splits into that switch without the quote |
| `CommandLines.AppendPartitions` | zutils/base/command_line.cc:73-91 | appending is a stable partition into switches before the terminator and the rest, and the map is the last-wins fold over those switches |
| `CommandLines.TokenRereads` | zutils/base/command_line.cc:56-70 | a switch token reads back as the key and value it was made from if and only if the name has no equals sign and not both are empty |
| `CommandLines.SwitchMapAgrees` | zutils/base/command_line.cc:340-357 | after any run of initialisations and appends the map is what the switch tokens say if and only if, since the last initialisation, no appended name has an equals sign and the last switch with an empty name, if any, has a value |
| `CommandLines.ReinitReproduces` | zutils/base/command_line.cc:242-248 | initialising again from one's own vector gives the same three fields if and only if every switch has a value or a proper name that ends in no space |
| `MD5.SameFunctions` | zutils/base/md5.cc:52-55 | the rewritten F1 and F2, and F3 and F4, are F, G, H and I of RFC 1321 |
| `MD5.Unrolled` | zutils/base/md5.cc:58-59 | one unrolled step on rotated registers is one table-driven operation |
| `MD5.StepsInvertible` | zutils/base/md5.cc:66-139 | for a fixed block the 64 operations, without the final additions, have a two-sided inverse |
| `MD5.MD5Transform` | zutils/base/md5.cc:66-146 | the 64 unrolled steps and the additions are the four rounds of section 3.4 of RFC 1321 |
| `MD5.ByteReverse` | zutils/base/md5.cc:39-47 | each group of four bytes is read low byte first and stored in the machine's order |
| `MD5.WordsReversed` | zutils/base/md5.cc:39-47 | after that a machine of either byte order reads the low-byte-first words of the block |
| `MD5.LaidReversed` | zutils/base/md5.cc:262-263 | the digest bytes do not depend on the machine's byte order |
| `MD5.FewestZeros` | zutils/base/md5.cc:229-250 | the padding is the least that leaves 8 bytes to a block boundary |
| `MD5.PadOne` | zutils/base/md5.cc:247-261 | when the tail leaves room one more block ends the message |
| `MD5.PadTwo` | zutils/base/md5.cc:239-261 | otherwise the padding fills the tail's block and the length goes into one more |
| `MD5.BitCount` | zutils/base/md5.cc:177-182 | the two 32-bit words stay the bit count modulo 2^64, carry included, for any length |
| `MD5.Context.Update` | zutils/base/md5.cc:170-216 | a context that took in m and is given data has taken in m followed by data |
| `MD5.Context.Final` | zutils/base/md5.cc:222-265 | the digest is that of everything taken in, and the context is wiped |
| `MD5.Context.IntermediateFinal` | zutils/base/md5.cc:267-273 | the digest so far, without changing the context |
| `MD5.DigestOfChunks` | zutils/base/md5.cc:156-273 | however a message is cut, the result is the RFC 1321 digest of the whole, and each intermediate digest that of its prefix |
| `LazyInstances.StepInv` | zutils/base/lazy_instance.cc:18-53 | every step of any thread keeps the protocol's invariant |
| `LazyInstances.WordOnlyAdvances` | zutils/base/lazy_instance.cc:23-51 | in every run the word only moves from 0 to creating to an address, which stays |
| `LazyInstances.CreatedOnce` | zutils/base/lazy_instance.h:142-177 | the constructor starts at most once; once any call has returned it has finished exactly once; all calls return its address; the destructor is registered at most once, and has been when all calls have returned |
| `LazyInstances.SpinsForAnother` | zutils/base/lazy_instance.cc:34-36 | a thread spins only while exactly one other is between its compare-and-swap and its publish |
| `LazyInstances.NeverStuck` | zutils/base/lazy_instance.h:142-177 | from every reachable state at most 12 more moves bring any call to its return, with the instance |
| `PickleFormat.FullRoundTrip` | zutils/base/pickle.cc:27-185 | any sequence of typed values reads back with the same kinds and ends exactly at the end |
| `PickleFormat.LowByteFirst` | zutils/base/pickle.cc:27-37 | numbers are laid out low byte first |
| `PickleFormat.DoKeeps` | zutils/base/pickle.cc:39-79 | on arbitrary bytes a read hands out only bytes of the payload, before its new position |
| `PickleFormat.DoExact` | zutils/base/pickle.cc:39-79 | a read succeeds if and only if as many bytes are left as it asks for, and moves by their number rounded up to 4, or to the end; a failed one moves to the end, or not at all if the count overflowed |
| `PickleFormat.ReadsKeep` | zutils/base/pickle.cc:39-79 | under any reads the position never decreases, never passes the end and is a multiple of 4 until it reaches it |
| `PickleFormat.TypedRead` | zutils/base/pickle.cc:81-185 | every typed read is at most two of these reads |
| `PickleFormat.FailureLasts` | zutils/base/pickle.cc:39-79 | after a read that failed, but not by overflow, all later ones that ask for bytes fail, whatever is tried in between |
| `PickleFormat.GrowBounded` | zutils/base/pickle.cc:343-355 | the capacity changes exactly when the payload no longer fits, at least doubles then, and keeps the bounds |
| `PickleFormat.AmortizedGrowth` | zutils/base/pickle.cc:343-362 | over any writes the payload moved is less than twice what was written; the capacity is a multiple of 64, at most max(64, twice the offset) and at least 64 times 2 to the number of growths |
| `PickleFormat.OpenReadOnly` | zutils/base/pickle.cc:209-226 | data are accepted if and only if the stated payload leaves a nonempty aligned header, and then header and payload make up the data with no wraparound |
| `PickleFormat.PrefixRefused` | zutils/base/pickle.cc:319-333 | no proper prefix of a serialized pickle is taken for one |
| `PickleFormat.Framing` | zutils/base/pickle.cc:319-333 | a stream of serialized pickles, even one broken off inside the last, is cut at exactly the original boundaries, and each cut opens with its header size |
| `Pickles.Pickle.Resize` | zutils/base/pickle.cc:308-316 | the capacity is rounded up to 64 and the bytes that fit are kept |
| `Pickles.Pickle.WriteBytesCommon` | zutils/base/pickle.cc:343-362 | appends the data padded with zeros to 4 bytes, keeps the header, stores the payload size, and grows as specified |
| `Pickles.Pickle.Write` | zutils/base/pickle.cc:264-294 | appends exactly the encoding of the value |
| `Pickles.SerializedIsMessage` | zutils/base/pickle.cc:198-207 | the bytes of any pickle that was written are a message of the stream format |
| `Pickles.PickleIterator.Advance` | zutils/base/pickle.cc:39-46 | advances by the aligned size but not past the end |
| `Pickles.PickleIterator.GetElements` | zutils/base/pickle.cc:70-79 | a byte count that overflows an int hands out nothing and does not move |
| `Pickles.PickleIterator.Read` | zutils/base/pickle.cc:81-177 | reads one value as specified and leaves the iterator where specified |
| `Pickles.RoundTrip` | zutils/base/pickle.cc:198-362 | values written to a fresh pickle read back through an iterator, which ends at its end, with the growth bounds |
| `PathServices.PathService.Get` | zutils/base/path_service.cc:182-232 | returns what an evaluation without a cache would, keeps the cache coherent, and if paths made absolute have no ".." returns none with one, overrides apart |
| `PathServices.ReplyIsEval` | zutils/base/path_service.cc:198-228 | that is the override, or else what the first provider to answer gave after its own questions were answered the same way, made absolute if it has a ".."; and there is no other such reply |
| `PathServices.ParentIsResolved` | zutils/base/path_service.cc:219-224 | a path with ".." is handed out as its absolute form, and one that has none not at all |
| `PathServices.PathService.OverrideAndCreateIfNeeded` | zutils/base/path_service.cc:242-281 | on success the override is in place and the cache coherent; on failure nothing changes |
| `PathServices.PathService.RemoveOverride` | zutils/base/path_service.cc:283-300 | the override is gone and the cache coherent |
| `PathServices.PathService.RegisterProvider` | zutils/base/path_service.cc:302-332 | the provider comes first, and the cache that is left alone stays coherent if and only if no remembered answer changes |
| `PathServices.Disturbed` | zutils/base/path_service.cc:302-332 | whenever a registration changes the answer for a remembered key, the service goes on giving the old one |
| `PathServices.QuietIsSame` | zutils/base/path_service.cc:302-332 | the answer for a key and those its evaluation rests on all stay if and only if the new provider gives no path for any of these keys |
| `PathServices.QuietUndisturbed` | zutils/base/path_service.cc:302-332 | a provider that gives no path for what the remembered keys rest on changes no remembered answer |
| `PathServices.GroundedIsQuiet` | zutils/base/path_service.cc:302-332 | an answer that came about by asking only answerable keys is changed by no provider with a range of its own |
| `PathServices.OverrideChangesDependents` | zutils/base/path_service.cc:272-276 | overriding one key can change the answer for another, so the whole cache has to go |
| `PathServices.NegativeReadsGoStale` | zutils/base/path_service.cc:302-332 | an answer that rests on an unanswerable key can change when a provider is registered |
| `PathServices.StaleReply` | zutils/base/path_service.cc:302-332 | the service then still returns the old answer |
| `PathServices.ServeAll` | zutils/base/path_service.cc:150-341 | in every run of calls that do not overlap, whose registrations change no answer remembered at that point, every reply is that of a service without a cache, with no ".." in it under the same proviso |
| `PathServices.AnswerableIsLegal` | zutils/base/path_service.cc:150-341 | such are all runs in which every evaluation asks only answerable keys, whatever is registered when |
| `IdTables.EveryRun` | zutils/base/id_map.h:60-124 | in every run marked ids are stored ids and none without iterators, the size counts the unmarked ids, and each pointer an owning map was given is deleted or stored, once for each time it was added |
| `IdTables.DeletedWithoutIterators` | zutils/base/id_map.h:81-106 | a pointer is deleted only when no iterator lives or the last one ends |
| `IdTables.ClearEmpties` | zutils/base/id_map.h:97-106 | Clear leaves the map empty if and only if it owns, is iterated, or was empty |
| `IdTables.ReachesExact` | zutils/base/id_map.h:191-197 | set on an entry, an iterator stops at the first id not marked and passes the marked ones in order |
| `IdTables.FullIteration` | zutils/base/id_map.h:137-205 | without insertions a full iteration comes to each id once, in order; cut at any moment, what it skipped before was not in the map or has been removed or cleared, and what it visits after was and has not |
| `IdTables.RefinesPlainMap` | zutils/base/id_map.h:60-106 | in every run the entries not marked are those of a map that removes at once, without iterators the map holds just these, and an owning one has then deleted all other pointers it was given |
| `IdTables.CopyKeepsPlace` | zutils/base/id_map.h:143-147 | a copied iterator is on the same entry, or on the next one still there if that was removed |
| `IdMaps.IdMap.Add` | zutils/base/id_map.h:60-68 | stores the pointer under the next id, which is returned and counted up |
| `IdMaps.IdMap.Remove` | zutils/base/id_map.h:81-95 | marks the id while iterating, else deletes and erases, so that it is gone from the entries not marked; an unknown id changes nothing |
| `IdMaps.IdMap.Clear` | zutils/base/id_map.h:97-106 | marks all ids while iterating, else releases all |
| `IdMaps.IdMap.Compact` | zutils/base/id_map.h:230-237 | removing the marked ids one by one drops them all at once |
| `IdMaps.IdMap.Destroy` | zutils/base/id_map.h:48-54 | an owning map has then deleted exactly what it was given |
| `IdMaps.MapIterator.Advance` | zutils/base/id_map.h:173-177 | goes to the next entry and on past marked ones |
| `IdMaps.MapIterator.Destroy` | zutils/base/id_map.h:156-166 | the last iterator to go compacts the map |
| `RandUtil.Uniform` | zutils/base/rand_util.cc:47-54 | for every largest word and range each residue comes from exactly floor(max / range) accepted words, and at least half of all words are accepted |
| `RandUtil.RandGenerator` | zutils/base/rand_util.cc:47-62 | the result is the residue of the first accepted draw, all earlier ones being rejected |
| `RandUtil.EquallyLikely` | zutils/base/rand_util.cc:56-61 | for any number of draws the sequences giving one result are paired off with those giving another |
| `RandUtil.RandInt` | zutils/base/rand_util.cc:18-26 | the result lies in min..max and is the generator's number above min |
| `RandUtil.RandIntUniform` | zutils/base/rand_util.cc:18-26 | every integer from min to max comes from the same number of words, and no other from any |
| `RandUtil.SumOverflows` | zutils/base/rand_util.cc:22-22 | the signed sum leaves the int range exactly for drawn numbers above 2^31 - 1, which exist exactly for ranges of more than 2^31 numbers |
| `RandUtil.UnitIntervalUniform` | zutils/base/rand_util.cc:32-45 | results lie in [0, 1) and each multiple of 2^-53 there comes from exactly 2^11 words |
| `Environments.ParseEnvLine` | zutils/base/environment.cc:106-118 | the key is what precedes the first equals sign, the length that of the line with its null |
| `Environments.AlteredMeaning` | zutils/base/environment.cc:145-181 | a changed key is set once, to its new value, a deleted one not at all, and every other key by just the lines that set it before, if and only if no key that is set has an equals sign |
| `Environments.KeyOfLineOf` | zutils/base/environment.cc:212-215 | an added line reads back under its key if and only if the key has no equals sign |
| `Environments.Idempotent` | zutils/base/environment.cc:145-181 | applying the same changes again changes nothing if and only if each key that is set is, up to its first equals sign, itself a changed key |
| `Environments.LineOrder` | zutils/base/environment.cc:150-170 | the result is the lines no change speaks of, in their order, then one line for each change that sets a value, in the order of the changes |
| `Environments.FillPointers` | zutils/base/environment.cc:218-230 | pointers and storage fit the allocated block, each pointer leads to its offset, and a null one ends them |
| `Environments.PosixReadsBack` | zutils/base/environment.cc:185-233 | a packed block reads back as its lines if and only if none has a null in it |
| `Environments.AlterEnvironmentPosix` | zutils/base/environment.cc:185-233 | the block packs the untouched lines in order and one line for each change that adds, and reads back as these if and only if those changes have no nulls |
| `Environments.WindowsReadsBack` | zutils/base/environment.cc:170-180 | the same for the block of lines that ends in a double null |
| `Environments.AlterEnvironmentWindows` | zutils/base/environment.cc:145-181 | the Windows block holds those lines, ends in two nulls, and reads back as the lines if and only if those changes have no nulls |

## Left out

- Contexts, iterators and pointers have fresh identities: reuse of a freed address is not modelled.
- Null observers, and the debug-only assertions, are not modelled.
- The observer list's maximum `size_t` limit for NOTIFY_ALL is an absent limit.
- Reference counting of the thread-safe list is one step, `Destroy`, enabled when no call or task holds it; a posted task either runs or is dropped with its message loop.
- `PrependWrapper`, `CopySwitchesFrom`, `GetArgs`, the program name under the rules for the first argument, and conversions between narrow and wide strings are not modelled; tokens are sequences of characters.
- MD5 sine table: the constants are those of the code and of RFC 1321; that they are the sine values is not proved.
- LazyInstance: the `OnExit` callback, a constructor that asks for its own instance, and weak memory ordering are not modelled.
- Pickle: bool, float, double, `long` and wide-string encodings, `Reserve`, copies and assignments are not modelled; numbers are laid out low byte first, as on the machines where pickles are exchanged.
- PickleIterator: it reads the payload as it was when the iterator was made; the source demands that the pickle is not changed meanwhile.
- ServeAll: a registration that changes a remembered answer ends the run, because `Disturbed` shows that replies are wrong from there on; providers may ask any key but DIR_CURRENT, whose value can change at any time; calls that overlap on several threads are not modelled, because the cache is written after the lock was dropped; the file system is a fixed function.
- IDMap: the order in which the hash table is iterated, and where an insertion lands in it, are arbitrary; ids are unbounded; assignment of iterators is not modelled.
- FullIteration: insertions during the iteration are excluded, because where they land decides whether they are met.
- RandUtil: the words drawn are given as a sequence, and the result is absent when it runs out; where they come from is not modelled.
- Reading and setting variables of the running process is not modelled.
- `callback_list.h`, `deferred_sequenced_task_runner.cc`, `barrier_closure.cc`, `at_exit.cc`, `cancelable_callback.h`, `big_endian.cc` and `guid.cc` would only add easier variants of the above; templates, logging, sockets and other wrappers of the operating system hold no algorithm of this kind.
