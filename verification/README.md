# InterNetNews, verified

Models of the parts of INN whose correctness is hardest to see from the code, with proofs. Each module models one
program or one part of `innd`:

- **Shlock** (`shlock`): any number of processes compete for a lock file, interleaved at system-call level. They may
  crash at any call, calls may fail, inode numbers are reused, and the directory may hold old locks and debris. A live
  lock is never taken away, at most one process breaks a stale lock at a time, whoever exits cleans up and says with its
  status whether it got the lock, and the number of calls is bounded by the number of locks broken.
- **Codec** (`encode`, `decode`): bytes become six-bit values, these are grouped in thirteens, and each group becomes
  twelve printable characters in base 91. Both programs are modelled with their static buffers; what one writes the
  other reads back, for every input and whatever the encoder's buffer held before.
- **CodecText**, **CodecRead** (`encode`, `decode`): what a text of this code is, said of its characters as numbers; the
  encoder writes the one text for its input, and the decoder reads any text of this form.
- **Innxmit** (`innxmit`): the table of articles in flight, driven by a peer that may answer anything, with every path
  that gives up. A log of the replies says what the peer's last word on each article was; what becomes of an article is
  what this word says, no article of the batch file is lost, and everything offered is counted exactly once.
- **ArtParse** (`innd`): the parser that finds the end of an article arriving in pieces, and the limit on its size.
- **ArtLimit** (`innd`): for which articles and pieces this limit makes a difference.
- **ArtCount** (`innd`): the header taken apart into its fields, and the lines and bare characters counted.
- **ArtStore** (`innd`): the stored article as an I/O vector spliced from the received one, and the text that this gives.
- **ArtTree** (`innd`): the search tree for the names of header fields.
- **Actsync** (`actsync`): the merge of two active files, the resolution of aliases, and the two forms of output.
- **HisCache** (history API): the cache of positive and negative answers in front of the history database.
- **Ninpaths** (`ninpaths`): the text of the dump file in both versions, and reading it into a table that is not empty.

Programs that change state in loops are methods on classes or arrays, proved against functions of the values involved;
the properties are lemmas about these functions or invariants of the classes. Failing calls and the behaviour of others
are nondeterministic choices or parameters.

What the code does not do as documented or intended, with the exact condition in each case:

- `shlock -c` answers 1 when there is no lock file, although the manual promises 0; it also answers 1 for a stale lock
  that it cannot open, and 0 for a live one that it cannot read. Otherwise it answers as promised
  (`Shlock.CheckOnlyMeetsManual`, `Shlock.CheckOnlyFails`).
- If reading a lock with a live owner fails, `shlock` breaks this lock (`Shlock.FailedReadBreaksLiveLock`); as long as
  no such read fails, other failed reads do no harm (`Shlock.MutualExclusion`, `Shlock.LiveLockStays`).
- `innxmit` writes the entry of a requeued article so that the next run does not find the article again, exactly when
  the message-ID is longer than 250 characters or not in angle brackets, or the entry is taken for a path below the
  spool (`Innxmit.RequeuedReadsBack`); message-IDs taken from the article itself are not checked.
- A size limit of less than five makes `innd` miss the end of an empty article (`ArtParse.Framing`, `ArtParse.TinyLimit`).
- The counters of an article depend on the pieces it arrives in if and only if one of these, but for the last, ends
  within the header and beyond the limit, and something that counts comes after it; for an article that has arrived as
  a whole something always does (`ArtLimit.ChunkIndependence`, `ArtLimit.WholeInTime`, `ArtLimit.OverLimit`).
- If the path of an article is just the name of the cluster, the stored Path line loses its CR (`ArtStore.PathLineBroken`).
- If the path begins with a blank and its first name is the cluster's, something else than this name is cut from the
  stored path; otherwise exactly the name is (`ArtStore.ClusterCut`, `ArtStore.BlankPath`).
- `actsync` gives no alias of a host an error if and only if all of them lead to a group (`Actsync.ResolvedExact`); if
  one does not, aliases that are good may get one too (`Actsync.GoodAliasFlagged`).
- `actsync` removes every group of both hosts for which host 1 had an alias that leads nowhere, although host 2's line
  is good. The file is the plain merge if the aliases of host 1 all lead to groups, and, when the groups of these
  aliases are wanted, only then (`Actsync.LossExact`, `Actsync.BrokenAliasLost`).
- `actsync` puts a group out twice if and only if it passes on both hosts and more than once on host 2
  (`Actsync.PutOutTwice`).
- `actsync` both keeps and removes a group of host 1 if and only if the line of host 1 that it keeps is not the only one
  for this group there, and another one is later or in error (`Actsync.DuplicateRemoved`). The script then loses the
  group, which the new file has, if and only if no command adds it again (`Actsync.LostByScript`,
  `Actsync.DuplicateLost`).
- The history cache denies an all-zero hash that is stored until the first entry is used: a run of calls is answered as
  without a cache if and only if no such check occurs in it (`HisCache.History.HisCheck`, `HisCache.Serve`).
- A tally of less than one comes back as one from a dump (`Ninpaths.TalliesKept`), and a dump file can hold any tally
  (`Ninpaths.AnyTally`).

## Model

| member | source | states |
|---|---|---|
| Shlock.StepKeepsInv | backends/shlock.c:198-311 | every system call of every process, every crash, death of an owner and release keeps the invariant, unless it is a failed read of a lock with a live owner: unlinked temporaries are private, the lock file is complete, an open stale lock stays pinned, it is stale or not the lock any more, at most one process is about to unlink the lock |
| Shlock.RunInv | backends/shlock.c:198-311 | the invariant holds in every state of every run, from any directory, in which no read of a lock with a live owner fails |
| Shlock.SteadyReads | backends/shlock.c:57-80 | in particular no such read fails where reads do not fail at all |
| Shlock.MutualExclusion | backends/shlock.c:233-301 | while a process that was told it has the lock has a live owner that did not release it, no other process is in that position, and the lock file names this owner |
| Shlock.LiveLockStays | backends/shlock.c:243-301 | as long as the owner lives and does not remove it, a lock stays the same file and nobody acquires it, over any number of steps |
| Shlock.OneBreaker | backends/shlock.c:250-296 | a process about to unlink the lock name still has the stale file there, holds its second link, and nobody else is at or can pass the inode-and-two-links test |
| Shlock.TwoLinks | backends/shlock.c:268-290 | two processes cannot both have a second link to a file with exactly two links, one of them the lock |
| Shlock.RunEffect | backends/shlock.c:198-311 | a call of one process touches no name but the lock and its own two temporaries, replaces no lock, and changes no file but its own unfinished one |
| Shlock.AliveShrinks | backends/shlock.c:86-89 | dead owners stay dead in every run |
| Shlock.ExitLeavesNothing | backends/shlock.c:198-311 | from any directory, a process that exits leaves its first temporary only if its last attempt to unlink it failed, or it was there before and the process gave up because it could not create the file; and its second only if the attempt failed, or it was there before and the process never came to breaking a lock |
| Shlock.PastStays | backends/shlock.c:198-204 | whether the temporaries were there before is decided in the first state of a run |
| Shlock.ExitTells | backends/shlock.c:198-311 | in every run, with failing calls and reads or without, a process exits with 0 or 1, and with 0 if and only if it put its own file under the free lock name in an earlier step |
| Shlock.GetsFreeLock | backends/shlock.c:198-301 | left alone with a free lock, a process gets it, exits with status 0 and leaves the lock naming its owner, with an old temporary file of its own in the way or without |
| Shlock.OnlyPlainLocks | backends/shlock.c:253-290 | in every run a process that is about to make its second link has removed the old one, and the file it has open had no other name when it looked, so that locks with more links are never broken |
| Shlock.CallsBounded | backends/shlock.c:198-311 | in every run a process makes at most eighteen calls, and twelve more for every time it unlinks the lock name |
| Shlock.NeverStuck | backends/shlock.c:198-311 | until it exits or crashes a process always has a next step, and if a call fails that it cannot do without, it leaves and will not have the lock |
| Shlock.BreaksAndAcquires | backends/shlock.c:233-301 | left alone, a process that finds a dead owner in an ordinary lock file breaks the lock, gets it, removes its temporary file and exits with status 0 |
| Shlock.FailedReadBreaksLiveLock | backends/shlock.c:57-80 | a concrete run in which one failed read lets a live lock be broken and acquired |
| Shlock.CheckOnlyMeetsManual | backends/shlock.c:180-187 | the status of -c is what the manual promises if and only if there is a lock file and opening and reading it succeed, or their failure errs on the right side |
| Shlock.CheckOnlyFails | backends/shlock.c:57-84 | concrete states for the three ways to fail: no lock, a live lock that is not read, a stale one that is not opened |
| Codec.RoundTrip | frontends/decode.c:58-161 | decoding what was encoded ends properly and gives the input, for every input and every content of the uninitialised bytes |
| Codec.EncodeAndDecode | frontends/encode.c:98-116 | the two programs run one after the other give the input back |
| Codec.Encoder.Run | frontends/encode.c:98-116 | the output of the program is the encoding of its input, the text that `CodecText.Characters` is about |
| Codec.Encoder.Encode | frontends/encode.c:73-95 | adding a group keeps the final output that the remaining values will lead to, whether or not the buffer is flushed on the way |
| Codec.Encoder.DumpCode | frontends/encode.c:36-61 | writes the base-91 pairs of a group of any count, top bits from the thirteenth value or the parity of the count |
| Codec.Encoder.FlushOut | frontends/encode.c:63-71 | the end marker, the count and the last group complete the output |
| Codec.Decoder.Run | frontends/decode.c:108-161 | ends as the specification says on every input, and if properly with the specified output, in spite of the group that is held back; `CodecRead.Reads` says which output that is |
| Codec.Decoder.Pack12 | frontends/decode.c:57-105 | decoding a group keeps the final output that the remaining values will lead to, with the trimming of the last group |
| Codec.Decoder.Pack6 | frontends/decode.c:35-55 | a unit of values gives three bytes, or as many as its last value says |
| Codec.Decoder.Spread | frontends/decode.c:64-76 | twelve digits give twelve values and the thirteenth collected from the top bits |
| Codec.WordInverts | frontends/encode.c:51-60 | a 13-bit word survives the two base-91 digits, and no word gives the end marker |
| Codec.ThirteenInvert | frontends/decode.c:64-76 | a group of thirteen values comes back from its twelve digits |
| Codec.TailInverts | frontends/decode.c:67-78 | a last group of any count, odd or even, comes back after trimming |
| Codec.PackInverts | frontends/decode.c:122-157 | the values come back from the whole stream of groups, with the marker found and nothing else taken for it |
| Codec.SextetsInvert | frontends/decode.c:35-55 | the bytes come back from the six-bit values, whatever stale bytes the last unit holds |
| Codec.PackIgnores | frontends/encode.c:66-70 | what the buffer held before does not matter beyond the last group |
| CodecText.Characters | frontends/encode.c:36-116 | for every input the characters as numbers: each pair of a group holds two six-bit values and a bit of the thirteenth in base 91 above the space, the last group follows "zz" and its count, its odd value stands with the top bit one; and four values are, read in base 64, the number that their three bytes are in base 256 |
| CodecText.Abc | frontends/encode.c:36-116 | one whole text, written and read |
| CodecRead.Reads | frontends/decode.c:35-161 | for any text of the form of a code, from an encoder or not, the values that its pairs of characters stand for, and the bytes that each four of these are, with the last unit cut to its count |
| CodecRead.BadCharacters | frontends/decode.c:122-124 | the decoder complains of bad data if and only if there is a character below the space or above "z" |
| Innxmit.Feed.Run | backends/innxmit.c:1263-1485 | for any batch, replies and failures the program ends, and every article that reached the offer step got a final reply or repeats one in flight, is in the rewritten batch, or the batch is as it was; nothing that got a final reply is in a new batch, unread lines are copied, and if nothing fails the batch is removed exactly if nothing was put off and rewritten otherwise |
| Innxmit.Feed.RequeueRestAndExit | backends/innxmit.c:413-465 | giving up at any point loses nothing: articles in flight, the current one and the unread lines are in the new batch, or the old one is untouched, as it is when nothing was sent; if nothing fails and something was, it is rewritten |
| Innxmit.Feed.CopyRest | backends/innxmit.c:441-461 | every unread line except overlong ones is in the new batch |
| Innxmit.Feed.CloseAndRename | backends/innxmit.c:350-370 | either the batch is replaced as a whole or it is as it was |
| Innxmit.Feed.StIndex | backends/innxmit.c:184-206 | finds a slot with that message-ID and hash, and none only if there is none |
| Innxmit.StIdHash | backends/innxmit.c:208-223 | the loop computes the hash of the part up to the closing bracket |
| Innxmit.HashedIds | backends/innxmit.c:208-223 | two letters hash to twice the first and the second, in either case, whatever follows the closing bracket |
| Innxmit.SearchIsLookup | backends/innxmit.c:184-223 | searching by hash and message-ID is plain lookup by message-ID, unless it is too long for the table |
| Innxmit.Clipped | backends/innxmit.c:226-257 | the table holds the first 511 characters of a message-ID |
| Innxmit.Feed.StAlloc | backends/innxmit.c:226-257 | never lacks a free slot, and refuses only a file name that is too long; the new slot holds the article and nothing else changes |
| Innxmit.Feed.StRel | backends/innxmit.c:260-269 | releases one slot, keeps the others and the count |
| Innxmit.PutConsistent | backends/innxmit.c:226-257 | a new article keeps: the count is the number of used slots, message-IDs in flight are distinct, ledger and table agree |
| Innxmit.DropConsistent | backends/innxmit.c:260-269 | releasing a slot keeps the same, and brings the table closer to empty |
| Innxmit.Feed.StrListen | backends/innxmit.c:802-912 | the first reply that is not informational changes exactly the slot it names as its code demands and settles the article accordingly, which the log of replies shows; every success strictly lowers the patience of the table, whatever the peer says |
| Innxmit.Feed.React | backends/innxmit.c:860-909 | retry, requeue, send, accept, refuse or reject, by code and number of retries; a fate is Accepted only on 239, Rejected only on 439, Refused only on 438, and what was put off with 431 is not settled |
| Innxmit.Feed.CheckAgain | backends/innxmit.c:862-867 | a repeated CHECK is counted as a retry and resets the age |
| Innxmit.Feed.TakeThis | backends/innxmit.c:768-795 | an article is sent at most once from its slot |
| Innxmit.FewCommands | backends/innxmit.c:1384-1411 | in a slot at most six CHECKs and one TAKETHIS are sent for an article |
| Innxmit.AsksAgain | backends/innxmit.c:1394-1411 | the whole ageing of a slot: CHECK is sent again after as many rounds without a reply as there are articles in flight and two more, five times, and then the article is requeued |
| Innxmit.CommandRestartsAge | backends/innxmit.c:768-909 | a reply or a round of ageing sends at most one command for an article, which starts the age of its slot again; a CHECK is a retry, TAKETHIS is sent on 238 only, and without a command the slot is one round older or released |
| Innxmit.Feed.MakeRoom | backends/innxmit.c:1369-1377 | waits until fewer than 16 articles are in flight if there are 32, or 16 when articles are sent unasked, and does nothing otherwise; puts no new message-ID into the table |
| Innxmit.Feed.OfferStream | backends/innxmit.c:1352-1412 | an article is skipped exactly when its message-ID is in flight; otherwise it is in the table afterwards, or already requeued by ageing |
| Innxmit.Feed.SendFirst | backends/innxmit.c:1384-1393 | CHECK, or TAKETHIS after enough successes, is sent for the new slot only |
| Innxmit.Feed.AgeSlots | backends/innxmit.c:1394-1411 | one round of ageing over all slots, where released slots count at once; only articles in flight are requeued |
| Innxmit.Feed.OfferIhave | backends/innxmit.c:1414-1466 | the fate of an article offered with IHAVE is decided by the one or two replies it gets, which the log shows: Refused only on 435 or 501, and on 436 requeued; certain replies stop the program |
| Innxmit.Feed.SendArticle | backends/innxmit.c:629-676 | the reply after the article decides between accepted (235), rejected (437, 501) and requeued, which the log shows |
| Innxmit.Feed.Drain | backends/innxmit.c:1469-1475 | waiting for the last replies ends with an empty table against any peer |
| Innxmit.Feed.RemoveOrReplace | backends/innxmit.c:1477-1484 | at the end the batch is replaced by what was requeued if anything was, and removed otherwise; it stays only if that fails |
| Innxmit.Conservation | backends/innxmit.c:184-269 | offered = accepted + refused + rejected + skipped + requeued + in flight + current, in every reachable state |
| Innxmit.RequeuedReadsBack | backends/innxmit.c:1309-1344 | a requeued entry names the same article to the next run if and only if its message-ID is bracketed and at most 250 characters long and the name is not taken for a spool path |
| Innxmit.LongestId | backends/innxmit.c:1309-1328 | the longest message-ID that is used has 248 characters between the brackets |
| Innxmit.LongIdDropped | backends/innxmit.c:1321-1328 | a concrete message-ID that the next run drops |
| ArtParse.Framing | innd/art.c:777-968 | in whatever pieces an article arrives, the parser stops exactly at the first end and tells empty, too large and good articles apart, if and only if the limit is absent, at least the size, or the article is not empty; before the end it asks for more |
| ArtParse.TinyLimit | innd/art.c:784-790 | a concrete limit of three with which the end of an empty article is missed |
| ArtLimit.ChunkIndependence | innd/art.c:777-968 | state, position, counters and calls are those of parsing the article at once if and only if the parser does not notice within the header that the limit is exceeded, or no line end and no NUL of the header comes after that |
| ArtLimit.WholeInTime | innd/art.c:777-968 | for an article that has arrived as a whole this means that no piece but the last ends within the header and beyond the limit |
| ArtLimit.WithinInTime | innd/art.c:777-797 | a limit that is not exceeded is not noticed |
| ArtLimit.MissedEnd | innd/art.c:784-790 | with a limit below the end of an empty article, pieces matter if and only if one comes after the end and lets the parser go on |
| ArtLimit.EatBody | innd/art.c:897-950 | in the body being eaten makes no difference but to the state |
| ArtLimit.EatHeader | innd/art.c:816-950 | from the header on it makes one exactly if a line end or a NUL comes |
| ArtLimit.LimitUnused | innd/art.c:777-797 | as long as the limit is not exceeded, it makes no difference |
| ArtLimit.OverLimit | innd/art.c:784-790 | a concrete article that is counted differently in one piece and in two, and that fails the condition |
| ArtParse.AfterTheEnd | innd/art.c:816-950 | what follows the end, and how much of it has arrived, does not matter |
| ArtCount.ParsedArticle | innd/art.c:816-950 | of an article, too large or not, in pieces that do not matter, the header is tiled by the checked fields, each with its continuation lines; header lines, body lines and dot-stuffed lines are counted as they stand in the text |
| ArtCount.BareCharacters | innd/art.c:897-950 | in the same way bare CRs and LFs of the body are counted exactly |
| ArtCount.Events | innd/art.c:816-950 | which errors are in the log of a whole run: an empty article, one without a body and one without headers by where the first end and the first empty line are, with the place where the body begins; too large with its size exactly beyond the limit; and a NUL exactly if one is in the body |
| ArtParse.Resume | innd/art.c:831-848 | scanning what has arrived and then the rest is scanning all of it |
| ArtParse.StepFrames | innd/art.c:822-950 | no step passes over an end, and an end is reported exactly where it is |
| ArtParse.Channel.ParseHeader | innd/art.c:816-891 | the loop does one scan over what has arrived, going on to the body |
| ArtParse.Channel.ParseBody | innd/art.c:897-950 | the loop does one scan over what has arrived |
| ArtParse.Channel.CheckArticleSize | innd/art.c:777-797 | the state after a piece |
| ArtParse.Channel.Receive | innd/art.c:957-968 | any sequence of reads gives the run that the other results are about |
| ArtStore.Splice | innd/art.c:443-552 | for every order of the header fields the vector joins to the text with a patch for each field, and to the edit made position by position; its length is the one passed on, and sixteen pieces are enough |
| ArtStore.StoredText | innd/art.c:443-552 | the stored text of every article: the received one with cluster, path and alias put before the path, the old Xref value replaced by the new one unless the site is a slave, the Bytes line taken out, and an Xref field added at the end of the header if there was none |
| ArtStore.BytesDropped | innd/art.c:518-528 | a whole stored text of an article with a Bytes field and no Xref |
| ArtStore.AllPatched | innd/art.c:443-552 | a whole stored text of an article with all three fields in another order, for a site with a cluster and an alias |
| ArtStore.OneEdit | innd/art.c:474-534 | one field: what precedes it is kept, the new text added, the old skipped |
| ArtStore.Ending | innd/art.c:535-552 | the rest is kept, with an Xref field at the end of the header if there was none |
| ArtStore.StaysInOrder | innd/art.c:435-472 | the fields are handled in the order in which they appear |
| ArtStore.PathLineBroken | innd/art.c:496-501 | the CR of the Path line is cut exactly when the cluster is known and its name is the whole path |
| ArtStore.OneHopPath | innd/art.c:496-501 | a concrete article with such a path |
| ArtStore.ParsePath | innd/art.c:338-375 | the loops split a path into its names: blanks before a name are skipped, and the character after it is dropped |
| ArtStore.PathSplits | innd/art.c:338-375 | a path of names of sites joined by "!" is split into exactly these names |
| ArtStore.BlanksSkipped | innd/art.c:349-352 | a blank or a tab before a path does not matter to its names |
| ArtStore.ClusterCut | innd/art.c:2041-2052 | what is cut for the cluster fits into the path, and is the name by which the cluster was known, with the character after it, if and only if the path does not begin with a blank |
| ArtStore.PathOnly | innd/art.c:443-552 | the whole text that is stored for an article that has neither Xref nor Bytes |
| ArtStore.BlankPath | innd/art.c:349-352 | a concrete path with two blanks, of which the cluster's name is kept and a blank is cut instead |
| ArtTree.DescendIsSearch | innd/art.c:655-665 | the descent finds a name exactly when a linear search that ignores case does, and the same one |
| ArtTree.LetterCase | innd/art.c:655-665 | names are compared character by character, where only an upper-case letter and its lower-case letter count as the same |
| ArtTree.Lookup | innd/art.c:655-665 | the loop is the descent |
| ArtTree.Balanced | innd/art.c:198-217 | a tree for n names has the depth d with 2^(d-1) <= n < 2^d |
| ArtTree.CompareGuides | innd/art.c:656-664 | comparing first by a capitalised first character and then by the whole name never leads away from the name |
| Actsync.SortSorts | backends/actsync.c:1544-1584 | sorting puts any two different lines in the order of name, host and line, even if a host names a group twice |
| Actsync.CmpIsOrder | backends/actsync.c:1544-1584 | names are ordered by the first character in which they differ, or by length if one begins the other |
| Actsync.PairUp | backends/actsync.c:1632-1717 | in any sorted array, with duplicates or without, every entry becomes what looking for its group on both hosts says; the lines themselves never change |
| Actsync.PutOutTwice | backends/actsync.c:1688-1689 | a group is put out twice if and only if it passes on both hosts and more than once on host 2 |
| Actsync.DuplicateRemoved | backends/actsync.c:1644-1660 | a group of host 1 is kept and removed at the same time if and only if host 1 names it again, later or in error |
| Actsync.LostByScript | backends/actsync.c:2055-2092 | for any array the script loses a group of the new file if and only if it is also removed and no command adds it again |
| Actsync.DuplicateLost | backends/actsync.c:357-381 | the program run on a group that host 1 has twice: the file has it, and the script only removes it |
| Actsync.FirstIsHost1 | backends/actsync.c:1673-1676 | in any sorted array, the first of a pair is from host 1, so that internal error #8 cannot happen |
| Actsync.MergeResult | backends/actsync.c:1597-1737 | the new active file is host 2's groups, and with -m also host 1's, where host 2's types win |
| Actsync.MarkEqProbs | backends/actsync.c:2314-2504 | the loops compute the specified resolution; only aliases of the host get errors, every alias left without one leads to a group that is not an alias in at most sixteen hops, and nothing gets an error if and only if every alias does |
| Actsync.ResolvedSound | backends/actsync.c:2371-2504 | errors are added to aliases of the host only, and each that gets none leads to a group |
| Actsync.ResolvedExact | backends/actsync.c:2314-2504 | in a sorted array in which each host names a group once, no alias gets an error if and only if all of them lead to a group |
| Actsync.ErrorReasons | backends/actsync.c:2371-2496 | which error an alias gets: for looping only if it comes back to its own name in at most sixteen hops, for a long chain only if it goes on over sixteen others, for not leading to a group only if this or another alias leads to a name that no good entry has, and no other |
| Actsync.GoodAliasFlagged | backends/actsync.c:2437-2453 | a concrete array in which a good alias is in error because the cursor went past its group for another alias |
| Actsync.FollowAll | backends/actsync.c:2371-2463 | one round ends, is the walk of the two cursors that `Follow` describes, and counts what is left to be resolved |
| Actsync.FollowSound | backends/actsync.c:2371-2463 | in a round every record left has been followed one hop further, and errors are added to aliases only |
| Actsync.SortFirstKeeps | backends/actsync.c:2244-2298 | sorting loses no record and puts those that are not finished first, as many as were counted |
| Actsync.OneHop | backends/actsync.c:2393-2423 | following an alias to an entry of that name adds one hop |
| Actsync.ErrorMark | backends/actsync.c:2186-2221 | exactly the groups of the host in error are marked for removal |
| Actsync.SortedTable | backends/actsync.c:1611-1614 | sorting does not change what host 1's active file says |
| Actsync.OutputActive | backends/actsync.c:2027-2040 | the lines of the new active file, of whose numbers `Actsync.NumbersRight` speaks |
| Actsync.NumbersRight | backends/actsync.c:1684-1713 | the article numbers of every line, from the two files as read, for hosts that name each group once: those of host 2 if both have the group and `host2HiLowAll` is set, else those of host 1 if it has the group, else those of host 2 with `host2HiLowNew`, and 0000000000 and 0000000001 without |
| Actsync.OutputScript | backends/actsync.c:2055-2092 | all removals come first, then additions and changes |
| Actsync.CommandsFit | backends/actsync.c:2055-2092 | every command for such hosts: only groups of host 1 are removed, only groups that only host 2 has are made, with its type, and types are changed only where they differ, to that of host 2 |
| Actsync.ScriptIsFile | backends/actsync.c:1984-2154 | applied to host 1's active file the commands give the new active file plus the groups of host 1 that were not put out |
| Actsync.ErrorsRemove | backends/actsync.c:2186-2221 | marking errors takes host 1's groups in error out of the new file and nothing else |
| Actsync.Synchronize | backends/actsync.c:357-381 | the whole program on any two active files, what is put out; and if each host names a group once, script and file agree, the file is the merge less the groups of broken aliases on host 1, with the article numbers that the options ask for, and every command is needed, said of the two files as they were read |
| Actsync.OnceNamed | backends/actsync.c:357-381 | for hosts that name each group once, what follows for script and file from pairing, aliases and errors |
| Actsync.LossExact | backends/actsync.c:357-381 | every group of an alias that leads nowhere is lost, what is lost was an alias, nothing is lost if all lead to groups, and only then when their groups are wanted |
| Actsync.BrokenAliasLost | backends/actsync.c:1727-1728 | the program run on two lines, of which the good one disappears |
| HisCache.History.HisCheck | history/his.c:226-258 | the answer is the database's if and only if the hash is not the all-zero one, stored, with its entry blank; every check is counted once, in the right counter |
| HisCache.History.CacheLookup | history/his.c:99-122 | hits and misses are what the database says |
| HisCache.History.CacheAdd | history/his.c:80-94 | one entry is replaced, and all entries stay right |
| HisCache.SamePlace | history/his.c:80-94 | two hashes share a place if and only if their last four bytes, as numbers, differ by a multiple of the size |
| HisCache.History.HisStore | history/his.c:260-321 | storing keeps negative entries from going stale |
| HisCache.History.HisSetCache | history/his.c:348-361 | a new cache is blank and the counters start again |
| HisCache.History.HisStats | history/his.c:367-377 | the counters add up to the checks since they were last reset |
| HisCache.Serve | history/his.c:226-377 | over every sequence of calls the database becomes what it would be without a cache, and the answers are those without a cache if and only if no check is blind |
| HisCache.ServeOne | history/his.c:226-377 | one call: its answer is the one of the database if and only if it is not a blind check, and what becomes of the first entry |
| HisCache.UnaskedNeverBlind | history/his.c:99-122 | if the all-zero hash is not checked while it is stored, no check is blind, whatever the cache holds |
| HisCache.ZeroDenied | history/his.c:360-361 | a stored all-zero hash is denied after the cache was set |
| Ninpaths.Reload | backends/ninpaths.c:138-300 | dumping a table and reading it into another adds hosts, links and the total; tallies exactly if all are positive |
| Ninpaths.Paths.WriteDump | backends/ninpaths.c:137-188 | the text is the dump of exactly the hosts and links of the table, and nothing is written for an empty total |
| Ninpaths.Paths.ReadDump | backends/ninpaths.c:214-300 | for every text, of version 3.0 or 3.1 or neither: it is loaded if and only if it is a dump file whose links are in bounds, and then its hosts, links and total are added; otherwise the total stays |
| Ninpaths.Paths.ReadHosts | backends/ninpaths.c:233-243 | reads as many hosts as there should be or fails, and adds them; the numbered hosts are found again or made |
| Ninpaths.Paths.ReadRows | backends/ninpaths.c:261-274 | the links up to where none can be read are added to the hosts with their numbers and counted, unless a number is out of bounds |
| Ninpaths.Paths.ReadOldRows | backends/ninpaths.c:252-260 | the same for the rows of version 3.0 |
| Ninpaths.ReadsBack | backends/ninpaths.c:138-300 | a dump is read as it was written, but for tallies of less than one |
| Ninpaths.RowsBack | backends/ninpaths.c:261-274 | all rows are read back from where they begin |
| Ninpaths.OldReadsBack | backends/ninpaths.c:229-275 | what a dump of version 3.0 means: hosts, and rows "a!b!l" as links from a to b with tally l; not loaded if a number is out of bounds or the count is wrong |
| Ninpaths.OldTotal | backends/ninpaths.c:252-260 | a dump of version 3.0 that lists a table adds this table, whatever its tallies |
| Ninpaths.WholeDump | backends/ninpaths.c:138-188 | one whole dump file |
| Ninpaths.LinesBreak | backends/ninpaths.c:151-164 | an output line ends after a host if and only if it has more than 120 characters then |
| Ninpaths.NameFits | backends/ninpaths.c:21-22 | a name that is read back has at most 127 characters and no white space in it |
| Ninpaths.Paths.ListHosts | backends/ninpaths.c:150-155 | the walk over the hash table meets every host once |
| Ninpaths.Paths.WriteRow | backends/ninpaths.c:172-179 | the links of a host, where a count of one is left out |
| Ninpaths.Paths.HHost | backends/ninpaths.c:73-97 | finds the record of a host or makes one |
| Ninpaths.Paths.TallyRec | backends/ninpaths.c:99-114 | finds the record of a link or makes one |
| Ninpaths.HeadScanned | backends/ninpaths.c:229-231 | the header is read as it was written |
| Ninpaths.HostScanned | backends/ninpaths.c:238-239 | a host record is read as it was written |
| Ninpaths.LinkScanned | backends/ninpaths.c:263-267 | a link is read as it was written, with a count of one if there is none |
| Ninpaths.IntScanned | backends/ninpaths.c:238-263 | a number is read as it was written |
| Ninpaths.TalliesKept | backends/ninpaths.c:172-177 | tallies come back if and only if they are positive |
| Ninpaths.AnyTally | backends/ninpaths.c:172-177 | for every number a file that loads with it as the tally of a link, and what comes back after dumping and reading it once more: the number, or one if it is less |
| Ninpaths.OneLinkRead | backends/ninpaths.c:214-300 | the text of that file is a dump file with this tally |

## Left out

- Shlock.MutualExclusion: assumes that process IDs are not reused, all locks have one format, reads of a lock with a live owner succeed, and single calls are atomic.
- Shlock.ExitLeavesNothing: says nothing about processes that crash; what they leave is debris for a later one.
- shlock: the comparison of change times appears only as one more way to give up; sleeps and messages are not modelled.
- CodecRead.Reads: for texts that have the form of a code; for any other text the decoder is proved to do what `Decoded` says.
- Codec.Decoder.Run: where the decoder would use memory that was never written (an odd number of digits in the last unit, or a count that is too large), the result is `Unspecified`.
- Innxmit.Feed.Run: that the batch is removed or rewritten at the end is said for runs in which nothing fails; otherwise it may stay as it was. Runs without interrupts, without -r (drop unknown replies) and without -p (purge); the alarm is modelled.
- Innxmit.Conservation: counts articles, not the sizes that are summed up in floating point.
- innxmit: sockets, streaming negotiation, the text of commands and the syslog messages; reading a batch line and opening its article is a parameter.
- Innxmit.SearchIsLookup: message-IDs of 511 characters or more may be confused once the table has clipped them.
- ArtLimit.ChunkIndependence: leaves out limits below the end of an empty article that has arrived, which are the subject of `ArtParse.Framing` and `ArtLimit.MissedEnd`.
- ArtCount.ParsedArticle: what is counted of an article that is eaten from its header on is not specified, but that it differs.
- ArtCount.BareCharacters: bare CRs, bare LFs and NULs in the header are not specified, because the parser steps over the first character of each header line; nor is a dot on the first body line, which is not counted.
- innd: positions are relative to the start of the article, so that moving the buffer does not appear; what is done with a checked header field beyond looking it up.
- ArtStore.Splice: assumes that header fields do not overlap and that Bytes occurs at most once; what `KnowsCluster` says of the cluster is not said of the site's own name and its alias, which are given.
- ArtStore: the storage manager and the overview text made from the vector.
- ArtTree.Lookup: characters are bytes, and letters are those of ASCII.
- Actsync.DuplicateRemoved: for runs that do not check the aliases of host 1, whose errors remove groups too.
- Actsync.ResolvedExact: says when no alias is in error, and `Actsync.ErrorReasons` what must be wrong for each kind of error; which good aliases get one once another leads nowhere depends on the walk of the cursors and is what `Resolved` computes. The branch for a record that is already skipped cannot be reached in a round and is not modelled.
- Actsync.Synchronize: with duplicates the file is what pairing leaves, as stated by `Actsync.PairUp`, `Actsync.PutOutTwice` and `Actsync.DuplicateRemoved`, and is not said to be a merge; leaves out -T, -o a1, exec mode and the limit on changes in percent.
- HisCache.History.HisStore: one operation for writing, remembering and replacing; a report of failure means that the database did not change.
- HisCache: expiry on an open history, which does not clear the cache.
- Ninpaths.Paths.ReadDump: averages of times are left out; a link with a number that no host has ends in `OutOfBounds`, where the code does not check; memory runs out for a negative number of hosts only. What a file that is not loaded has added before it failed is not specified, but for the total.
- Ninpaths.Paths.HHost: holds for any hash function; the code's own is not modelled.
- Ninpaths: records are numbered places in a sequence instead of pointers; integers are unbounded.
