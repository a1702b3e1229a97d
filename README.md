# Signer pipeline and directory tree printer, in Dafny

This project models two small Go programs and proves what they compute.

**The signer pipeline** (`coursera/hw2/signer.go`) hashes a set of items in
three concurrent stages:

- `SingleHash` turns each item into `crc32(data) + "~" + crc32(md5(data))`.
- `MultiHash` turns each string into the concatenation of
  `crc32("0" + data)` through `crc32("5" + data)`.
- `CombineResults` sorts the strings and joins them with `_`.

`ExecutePipeline` chains the stages so that job k's output channel is job
k+1's input. In the model the goroutines, channels and wait groups are
gone:

- A stage is a function from the items it reads to the items it writes, or
  to a panic.
- The pipeline is the left-to-right composition of its jobs.
- Where the scheduler chooses an order, the model either takes that order
  as a parameter or proves that the order does not matter. There are two
  such places: the order in which the hash goroutines of one item finish,
  and the order in which one stage's outputs reach the next.

The per-item workers keep the source's imperative form. They collect the
`executionResult{order, value}` pairs into a `map[int]string` and read the
map back by index. The model proves that for every completion order this
gives the hashes in index order.

`DataSignerCrc32` and `DataSignerMd5` are not part of this model. They are
the two function-valued fields of the `Signers` parameter, so every result
holds for any pair of hash functions.

**The directory tree printer** (`coursera/hw1/main.go`) prints a directory
as a tree. The file system is replaced by a `Tree` value whose children come
in the order the directory read lists them.

- `getFileInfoList` is modelled as a method with the source's loop and
  recursion.
- `FilterDirectories` and `PrintFormatedOutput` are modelled as methods with
  their loops.
- `GetFileInfoList` is proved equal to the recursive specification
  `Listing`, and `FilterDirectories` to the filter `Directories`.
- `PrintFormatedOutput` states each printed line directly.
- The proved properties cover:
  - the prefix rule: each entry is addressed by its path of (index,
    sibling count) places, and its prefix is one unit per ancestor, then a
    corner or a tee;
  - pre-order;
  - the absence of files without `-f`;
  - the shape of each printed line.

Two library modules support these:

- `Decimal` models `strconv.Itoa` and `strconv.FormatInt(n, 10)` and
  proves their round trip.
- `Lexicographic` models:
  - Go's string order;
  - `sort.Strings`, specified as the unique ascending permutation;
  - `strings.Join`, with a `Split` that inverts it.

Two details follow the code exactly:

- The reassembly uses a map keyed by index.
- The panic message is spelled `"unnonw type in channel"`.

## Model

| member | source | states |
|---|---|---|
| Decimal.Itoa | coursera/hw2/signer.go:142-143 | an int renders as a minus sign exactly when it is negative, followed by decimal digits only, with no leading zero unless the value is 0 |
| Decimal.DigitsRoundTrip | coursera/hw1/main.go:111 | reading back the digits of a natural number gives that number |
| Decimal.ItoaRoundTrip | coursera/hw2/signer.go:142-143 | `Atoi(Itoa(i)) == i` for every integer, so the decimal rendering loses nothing |
| Decimal.ItoaInjective | coursera/hw2/signer.go:142-143 | distinct ints get distinct canonical strings |
| Lexicographic.LessEqReflexive | coursera/hw2/signer.go:135 | the string order sort.Strings uses is reflexive |
| Lexicographic.LessEqAntisymmetric | coursera/hw2/signer.go:135 | that order is antisymmetric |
| Lexicographic.LessEqTransitive | coursera/hw2/signer.go:135 | that order is transitive |
| Lexicographic.LessEqTotal | coursera/hw2/signer.go:135 | any two strings are comparable |
| Lexicographic.SortStrings | coursera/hw2/signer.go:135 | the result is ascending and a permutation of the input (same multiset) |
| Lexicographic.SortedUnique | coursera/hw2/signer.go:135 | two ascending sequences with the same multiset are equal, so the sort's result is determined by its input's multiset |
| Lexicographic.SortOrderInvariant | coursera/hw2/signer.go:135 | inputs with the same elements sort to the same sequence |
| Lexicographic.SortIdempotent | coursera/hw2/signer.go:135 | an ascending input is left as it is |
| Lexicographic.Join | coursera/hw2/signer.go:136 | strings.Join: "" for no pieces, otherwise a string that begins with the first piece and ends with the last; SplitJoin is its inverse |
| Lexicographic.SplitJoin | coursera/hw2/signer.go:136 | splitting at `sep` the join of pieces free of `sep` gives the pieces back |
| Lexicographic.SortedJoinSplits | coursera/hw2/signer.go:135-136 | splitting the sorted join gives an ascending permutation of the strings |
| Signer.GetStringFromChannel | coursera/hw2/signer.go:140-149 | it panics exactly for a value that is neither int nor string, with message "unnonw type in channel"; an int gives its decimal rendering, which reads back as the int; a string is kept |
| Signer.MultiHashSpelledOut | coursera/hw2/signer.go:98-101 | the MultiHash digest is `crc32("0"+data) + ... + crc32("5"+data)`, in that order |
| Signer.CalcHashData | coursera/hw2/signer.go:64-77 | there are two results with distinct orders; order 0 carries crc32(data) and order 1 carries crc32(md5) |
| Signer.CalcSixHashes | coursera/hw2/signer.go:109-124 | there are six results, each order 0..5 exactly once, and order i carries crc32(str(i)+data) |
| Signer.CollectResults | coursera/hw2/signer.go:93-96 | the loop fills `evaluated` as the results arrive, each stored under its order, a later one overwriting |
| Signer.Lookup | coursera/hw2/signer.go:57 | Go's read of `evaluated[i]`: the stored value, or "" for a missing key |
| Signer.ReadBack | coursera/hw2/signer.go:98-101 | the `finalResult +=` loop's value after n turns: the lookups of 0..n-1 concatenated; ReassembleInOrder says what it equals |
| Signer.CollectedContents | coursera/hw2/signer.go:93-96 | the map's keys are exactly the orders that arrived, and each holds the value expected at that order |
| Signer.CollectedKeyed | coursera/hw2/signer.go:51-55 | once every index has arrived, the map is exactly index to expected value |
| Signer.ArrivalKeyed | coursera/hw2/signer.go:114-119 | whatever order the hash goroutines finish in, the arrived results are still keyed by the expected values |
| Signer.ArrivalOrderIrrelevant | coursera/hw2/signer.go:93-96 | two arrival orders of the same results fill the same map |
| Signer.ReassembleInOrder | coursera/hw2/signer.go:98-101 | reading the map back by index 0..n-1 gives the expected hashes concatenated in index order, whatever the arrival order |
| Signer.SingleHashWorker | coursera/hw2/signer.go:40-58 | for every completion order of the two crc32 goroutines the worker emits `crc32(data)+"~"+crc32(md5(data))` for the item's canonical string, or panics as getStringFromChannel does |
| Signer.MultiHashWorker | coursera/hw2/signer.go:88-103 | for every completion order of the six goroutines the worker emits the six hashes concatenated in index order, or panics |
| Signer.Each | coursera/hw2/signer.go:38-59 | a stage succeeds exactly when every item does, with one result per item and in item order; otherwise it panics with the first failing item's message |
| Signer.SingleHash | coursera/hw2/signer.go:34-62 | the stage loop, one worker per item each with its own completion order, emits what SingleHashStage describes |
| Signer.MultiHash | coursera/hw2/signer.go:83-107 | the stage loop emits what MultiHashStage describes, for every completion order of every item |
| Signer.SingleHashStageOneToOne | coursera/hw2/signer.go:38-58 | SingleHash emits one string per item, SingleHashOf of its canonical string, and panics exactly when some item is neither int nor string |
| Signer.MultiHashStageOneToOne | coursera/hw2/signer.go:86-103 | MultiHash emits one string per item, MultiHashOf of its canonical string, and panics exactly when some item is neither int nor string |
| Signer.EachReordered | coursera/hw2/signer.go:38-58 | a stage fed a reordering of the same items succeeds or panics alike, and emits a reordering of the same strings |
| Signer.CanonicalStrings | coursera/hw2/signer.go:144-145 | strings read back as themselves |
| Signer.CombineStage | coursera/hw2/signer.go:127-138 | CombineResults emits exactly one value, a string |
| Signer.CombineResults | coursera/hw2/signer.go:129-138 | the loop collects the canonical strings, sorts and joins them with "_", and emits that single string, or panics on the first unreadable item |
| Signer.CombineOrderInvariant | coursera/hw2/signer.go:129-137 | the emitted value is the same for every permutation of the input |
| Signer.CombineEmpty | coursera/hw2/signer.go:130-137 | with no input the emitted value is the empty string |
| Signer.CombineJoinsSorted | coursera/hw2/signer.go:135-137 | when no canonical string contains "_", splitting the digest at "_" gives the canonical strings, ascending and as a permutation of the input |
| Signer.Run | coursera/hw2/signer.go:19-28 | the chain: job 0 on the input, each later job on its predecessor's output, a panic ending the run; RunAppend is its composition law |
| Signer.RunAppend | coursera/hw2/signer.go:19-28 | running a + b is running a, then b on a's output; the pipeline is left-to-right composition |
| Signer.ExecutePipeline | coursera/hw2/signer.go:15-30 | feeding each job's output to the next job, in argument order, gives the composition of the jobs, stopping at the first panic |
| Signer.SignerRunIsStages | coursera/hw2/signer.go:19-28 | the three signer jobs in the pipeline are SingleHash, then MultiHash, then CombineResults |
| Signer.SignerDigest | coursera/hw2/signer.go:127-138 | the signer run panics exactly when some item is neither int nor string; otherwise its one output is the per-item digests MultiHash(SingleHash(data)) sorted and joined with "_" |
| Signer.SignerDeliveryOrderIrrelevant | coursera/hw2/signer.go:86-103 | whatever order SingleHash's outputs reach MultiHash in, MultiHash succeeds; and whatever order MultiHash's outputs reach CombineResults in, the final digest is the same |
| Signer.SignerInputOrderIrrelevant | coursera/hw2/signer.go:129-137 | the final digest depends only on the multiset of input items |
| DirTree.GetPrefix | coursera/hw1/main.go:91-97 | the symbol is "└" exactly for the last index, and "├" otherwise |
| DirTree.FormatFileSize | coursera/hw1/main.go:107-113 | the label is "(empty)" exactly when the size is 0; otherwise it is "(" + decimal(size) + "b)" |
| DirTree.FormatFileSizeRoundTrip | coursera/hw1/main.go:111 | the size can be read back from its label |
| DirTree.FormatFileName | coursera/hw1/main.go:99-105 | the name starts the result; a directory shows exactly its name, and a file its name, a space and its size label |
| DirTree.Directories | coursera/hw1/main.go:75-83 | exactly the directories of the input are kept |
| DirTree.DirectoriesAppend | coursera/hw1/main.go:75-83 | filtering keeps relative order: the directories of a + b are those of a, then those of b |
| DirTree.DirectoriesKeepsDirectories | coursera/hw1/main.go:75-83 | a list of directories only is kept whole |
| DirTree.FilterDirectories | coursera/hw1/main.go:75-83 | the loop appending each directory computes that filter |
| DirTree.Listing | coursera/hw1/main.go:41-73 | the recursive model of getFileInfoList: the listed entries of a directory, each followed by the listing of its subtree; ListingIsPreOrder and ListingDrawing say what it holds |
| DirTree.Level | coursera/hw1/main.go:52-70 | the listing from position idx on: the entry drawn as `prefix + getPrefix(idx, len)`, for a directory its subtree under `prefix + ("│" unless last) + "\t"`, then the next sibling |
| DirTree.GetFileInfoList | coursera/hw1/main.go:41-73 | the loop with its recursive calls returns exactly the listing that the recursive specification describes |
| DirTree.NoFilesWithoutFlag | coursera/hw1/main.go:48-50 | without -f no file appears in the listing at any depth |
| DirTree.PreOrderSkipsFiles | coursera/hw1/main.go:48-50 | without -f the pre-order of the entries equals the pre-order of their directories |
| DirTree.ListingIsPreOrder | coursera/hw1/main.go:52-70 | the listing names the retained entries in pre-order: each entry, then its subtree, then its next sibling; so its length is the number of retained nodes |
| DirTree.DrawnBelowChild | coursera/hw1/main.go:63-67 | an entry drawn under a subdirectory's prefix is drawn under its parent's prefix too |
| DirTree.ListingDrawing | coursera/hw1/main.go:52-70 | the i-th entry is the node at the i-th path of (index, sibling count) places in pre-order, and its prefix is the prefix passed in, then per ancestor "│\t" when that ancestor is not its last sibling and "\t" when it is, then getPrefix of its own place: "└" when last, "├" otherwise |
| DirTree.ListingIsDrawn | coursera/hw1/main.go:53-67 | every entry's prefix is the prefix passed in, then a run of "\t"/"│\t" units, then "└" or "├"; the number and kind of the units are fixed by ListingDrawing |
| DirTree.PrintFormatedOutput | coursera/hw1/main.go:85-89 | one line per entry, in list order, each `prefix + "───" + formatFileName(file)` |
| DirTree.DirTreeLines | coursera/hw1/main.go:28-39 | the printed lines are the lines of the listing, one per retained node, in pre-order; line i is the drawing of the i-th path, the dashes and formatFileName of the node at that path |
| DirTree.LinesWithoutFlag | coursera/hw1/main.go:99-101 | without -f each line is a drawing, the dashes and a directory name, with no size |

## Left out

- Goroutines, channels, `sync.WaitGroup` and the blocking waits are not modelled. What is modelled is their outcome:
  - A stage is a function of the items it reads.
  - The order in which goroutines finish is a parameter (`completion`), or every order is covered by a permutation theorem.
- The `sync.Mutex` around `DataSignerMd5` is not modelled: it limits concurrency and has no effect on the output.
- `DataSignerCrc32` and `DataSignerMd5` are not part of this model. They are arbitrary functions passed in through `Signers`.
- The order in which SingleHash and MultiHash write their outputs is not fixed by the program. The stage functions emit in input order, and `SignerDeliveryOrderIrrelevant` covers every other order.
- The first job's input channel is created and never written or closed. In the model the first job's input is the parameter `input`. A first job that ranged over that channel would block forever; the model does not capture that.
- A panic in a goroutine ends the Go program while other stages may still be running. In the model it is an `Outcome.Panic` that ends the run and carries the first failing item's message.
- Go's `int` type switch is modelled loosely. `case int` matches only Go `int`, so other integer types fall to the panic. The model calls them `OtherValue`, and `IntValue` holds an unbounded integer.
- Itoa: 64-bit width is not modelled. The decimal rendering agrees with Go's for every value that fits.
- FormatFileSize: int64 width is not modelled. The size is only rendered, never computed with.
- `sort.Strings` and `strings.Join` internals are not reimplemented. The sort is specified as the unique ascending permutation. Comparing code points one by one gives the same order as Go's comparison of UTF-8 bytes.
- Strings are sequences of Unicode code points rather than Go byte strings. No encoding is modelled.
- `os.Open`, `Readdir`, `Close`, the path join used to open subdirectories, `os.Exit` on errors, writing to standard output, and argument parsing in `main` are not modelled. The tree is a value whose child order is what `Readdir(-1)` would return.
