# marchimetrics storage engine: a verified model

marchimetrics stores time series: samples of a label set, a millisecond timestamp and 64 bits of value.
Appended samples sit in a memory buffer; a flush writes them as immutable parts into one partition per UTC
day; merges replace the small parts of a day by one big part; retention drops whole days. A manifest per day
lists the live parts, index segments map series IDs to labels, once for all and once per day. This project
models that engine and its file formats, and proves what they promise.

Two halves meet in the class `Partitions.Partition`, whose directories hold bytes.

* **The bytes.** `Bits`, `BitStream`, `Varint`, `TimestampCodec` and `ValueCodec` are the encoders and
  decoders of `storage/encode.go`: the value stream is that of section 4.1.2 of "Gorilla: A Fast, Scalable,
  In-Memory Time Series Database" (VLDB 2015), varints are the base 128 and ZigZag varints of the Protocol
  Buffers encoding. `IndexSegment` and `IndexFiles` are the segment format and its replay under truncation,
  `Part` the block layout of a part. `DayNames` is the naming of days (basic format of section 4.1.2.2 of
  ISO 8601:2004), parts and segments, `Cutoffs` which days retention drops by it; `Selector` is the query
  text and its printer, `SelectorGrammar` the language of that text. Beside the round trips the formats are
  pinned byte by byte, against what the comments and tests of the program show of them.
* **The engine.** `Engine` is a state machine in which every file operation and every section under a lock
  is one step, a crash may fall between any two, and appends, a flush, a merge, a retention pass and a query
  interleave. `EngineInvariant` proves what every step keeps, `EngineLedger` that each step agrees with the
  simple thing the engine stands for, an append-only log per label set.
* **The program.** `ForceMerge` holds partition objects that retention may drop before it reaches them, and
  merges them all the same, in whatever directory has the day's name by then. `Program` is the engine
  together with such merges; its runs are what all theorems speak of. `ProgramListed` proves exactly when
  they do harm and `DroppedMerge` that they can. `ProgramLedger` proves that the program agrees with the
  log, `EngineQuery` and `EngineTheorems` what queries return and what crashes, failures and retention leave,
  `LateSample` which samples can always be found. Runs that fail are built move by move from `Stretches`.
* **The code.** `Series.Registry`, `Partitions.Partition` and `Storages.Storage` are the objects of the
  program, with the fields it updates. `EnginePaths` shows each uninterrupted call to be a path of steps of
  the machine, so that sequences of calls are runs (`ReachesRuns`, `OpenContinues`). `DayTurns` says what one
  call makes of the parts of one day.

Labels, `Contents` and `Grouping` hold what these share. Counts stand for multisets: the copies of a sample
are a number per series, sample and place. `dafny verify dfyconfig.toml` checks everything.

A merge of a dropped partition is why some results have a condition. Such a merge writes only to days before
the largest cutoff, and only to days dropped and made again in the same process (`UsedIsOld`,
`UsedWasDropped`); for all other days every result holds as it stands. The cutoff of a state lies past every
day that retention has set out to drop.

Where code and comments of the program differ, the model follows the code. The comment on `ApplyRetention`
(`storage/retention.go:48-52`) says that no merge can be touching the partition while it is dropped; one that
waits for the lock still can afterwards, and what it does then is `MergeOfDroppedLoses`. It also says
(`storage/retention.go:40-44`) that days are dropped whose entire day predates the cutoff; the cutoff is
computed in int64, and where it wraps (`InRangeIff`) that is so only by chance (`DropsRightlyIff`).

The comment on `Flush` (`storage/storage.go:177-181`) says that unflushed samples are returned on an error: only
those of the day that fails are (`FailedFlushAccount`), which is everything exactly when that day was the last
one left to visit (`FailureConservesIff`), as it always is in a buffer of one day. The comment on the buffer
(`storage/storage.go:48-51`) says that a crash loses at most it: what a flush has in its hands is lost too.

## Model

| member | source | states |
|---|---|---|
| Bits.Fixed64RoundTrip | storage/encode.go:39-41 | a 64-bit word written as eight little-endian bytes reads back, whatever follows |
| Bits.Fixed64IsLittleEndian | storage/encode.go:39-41 | the eight bytes are the base 256 digits of the word, the lowest first |
| BitStream.UnpackPack | storage/encode.go:213-266 | packing bits into bytes and unpacking them gives the bits back, followed by zero padding to the next byte |
| BitStream.PackIsHighFirst | storage/encode.go:213-239 | bits fill a byte from the highest place down, and missing bits of the last byte are zero |
| BitStream.BitWriter.WriteBit | storage/encode.go:219-226 | appends one bit to the stream of bits written so far, and nothing else |
| BitStream.BitWriter.WriteBits | storage/encode.go:228-232 | appends the n low bits of the word, most significant first |
| BitStream.BitWriter.Bytes | storage/encode.go:234-239 | the bytes are the packing of all bits written, the last byte padded with zeros |
| BitStream.BitReader.ReadBit | storage/encode.go:247-254 | the next bit of the stream; an error, and no movement, exactly at its end |
| BitStream.BitReader.ReadBits | storage/encode.go:256-266 | the next n bits as a word; an error exactly if fewer than n are left |
| Varint.UvarintRoundTrip | storage/indexdb.go:255-265 | every uint64 comes back from its base-128 form, and reading stops exactly at its end |
| Varint.UvarintCut | storage/indexdb.go:255-259 | every proper prefix of an encoded uvarint reads as unexpected EOF, never as another number |
| Varint.UvarintIsBase128 | storage/encode.go:35 | a uvarint is the shortest list of base 128 digits, the lowest first, with the high bit set on all but the last |
| Varint.UvarintReads | storage/indexdb.go:255-265 | any such list is read as its value, shortest or not; one that does not fit in 64 bits is an error |
| Varint.VarintRoundTrip | storage/encode.go:92-102 | every int64 comes back from its zigzag varint, and reading stops exactly at its end |
| Varint.VarintBytes | storage/encode.go:46-49 | a signed varint is the uvarint of 2x, or of -2x - 1 for a negative x |
| Varint.VarintReads | storage/encode.go:92-102 | and an even u reads as u / 2, an odd one as the negative number it stands for |
| Varint.VarintOneByte | storage/encode.go:46-49 | exactly the numbers from -64 to 63 take one byte |
| Varint.StrRoundTrip | storage/indexdb.go:267-278 | a length-prefixed string reads back, leaving what follows |
| Varint.StrCut | storage/indexdb.go:267-274 | every proper prefix of a length-prefixed string reads as unexpected EOF |
| Varint.ByteReader.Uvarint | storage/indexdb.go:255-265 | consumes exactly the bytes of one uvarint, or none on an error |
| Varint.ByteReader.Varint | storage/encode.go:92-102 | consumes exactly the bytes of one zigzag varint, or none on an error |
| Varint.ByteReader.Str | storage/indexdb.go:267-278 | consumes one length-prefixed string |
| TimestampCodec.EncodeTimestamps | storage/encode.go:33-53 | the loop writes the delta-of-delta block of its input |
| TimestampCodec.DecodeTimestamps | storage/encode.go:56-89 | the loop reads what the block decoder says, errors included |
| TimestampCodec.TimestampRoundTrip | storage/encode.go:33-89 | decoding an encoded block gives back every int64 sequence, unsorted ones and deltas that overflow included |
| TimestampCodec.BlockGrows | storage/encode.go:33-53 | byte for byte: a block is its count and then, timestamp by timestamp, the first in full, the first difference and the second differences as varints, differences being those of int64 |
| TimestampCodec.TimeBytes | storage/encode.go:39-41 | the first timestamp is its two's complement in eight bytes, the lowest first |
| TimestampCodec.KnownBlock | storage/encode.go:33-53 | the block of 0, 1000 and 1999 milliseconds, in bytes |
| TimestampCodec.TimestampCut | storage/encode.go:56-89 | no proper prefix of a block is taken for a block |
| TimestampCodec.RegularIntervalIsOneByte | storage/encode.go:47-51 | at a steady interval each further timestamp costs one byte |
| TimestampCodec.JitterIsOneByte | storage/encode.go:47-51 | a further timestamp costs at least one byte, and one byte each exactly if every second difference is within -64 to 63 |
| ValueCodec.EncodeValues | storage/encode.go:105-152 | the loop with prev, prevLz and prevTz writes the XOR block of its input |
| ValueCodec.DecodePoint | storage/encode.go:174-207 | one turn of the decoder reads the bits of one point and keeps the window as the decoder function says |
| ValueCodec.DecodeValues | storage/encode.go:155-210 | the loop reads what the block decoder says, errors included |
| ValueCodec.HeaderRoundTrip | storage/encode.go:136-144 | leading zeros in 5 bits and length in 6, with 0 for 64, read back |
| ValueCodec.PointRoundTrip | storage/encode.go:115-207 | encoder and decoder state stay in step over one point: same XOR, same next window, same position, whether the point is equal, fits the window or opens one |
| ValueCodec.StreamRoundTrip | storage/encode.go:115-207 | so they do over any sequence of points, from any window, whatever padding follows |
| ValueCodec.ValueRoundTrip | storage/encode.go:105-210 | decoding an encoded block gives back every sequence of 64-bit words, bit for bit |
| ValueCodec.ConstantIsOneBit | storage/encode.go:121-122 | a repeated value costs one bit |
| ValueCodec.ConstantBlock | storage/encode.go:105-152 | the whole block of a gauge that never changes: count, value, and a zero bit for each further point |
| ValueCodec.PointInWindow | storage/encode.go:121-134 | an equal value is the bit 0; one whose exclusive or is zero outside the open window is 10 and the bits of that window, which stays open |
| ValueCodec.PointOpensWindow | storage/encode.go:124-146 | any other is 11, five bits for its leading zeros, 31 at most, six for the number of bits that follow, modulo 64, and these, which are all from the first one bit, or bit 31, to the last; they are the open window from then on |
| ValueCodec.ValueCut | storage/encode.go:155-210 | no proper prefix of a block is taken for a block |
| IndexSegment.EncodeSegment | storage/indexdb.go:99-125 | the writer loop with prev produces the segment of the entries sorted by ID |
| IndexSegment.ReadIndexRecord | storage/indexdb.go:222-245 | consumes one record, or fails as the record decoder says |
| IndexSegment.ReadIndexSegment | storage/indexdb.go:194-220 | the replay loop gives the records of the file, stops at a torn tail, and fails on a bad magic or an overflow |
| IndexSegment.SegmentRoundTrip | storage/indexdb.go:54-220 | a whole segment replays to exactly its entries, ascending by ID |
| IndexSegment.TornTail | storage/indexdb.go:190-219 | cut anywhere at or after byte 8, a segment replays without error to exactly the records lying wholly within the cut |
| IndexSegment.WholeRecordsExact | storage/indexdb.go:205-213 | the number of records replayed is the largest whose bytes fit in the cut |
| IndexSegment.DamageIsAnError | storage/indexdb.go:194-220 | a number that overflows is an error after however many records, not a torn tail, and so is any other start of the file than the magic |
| IndexSegment.KnownSegment | storage/indexdb.go:99-125 | a segment of two records, in bytes |
| IndexFiles.FilesReplay | storage/storage.go:326-343 | replaying all segments of a directory in order gives the union of everything the flushes wrote |
| IndexFiles.TornLastFile | storage/storage.go:326-343 | with the last segment cut, everything older is there and of the last one exactly its whole records |
| Part.SortByTime | storage/part.go:80-145 | sorted by timestamp, and a permutation of its input |
| Part.EncodeBlocks | storage/part.go:84-126 | the two blocks of one series, in either encoding |
| Part.WidenMeta | storage/part.go:84-126 | MinTime and MaxTime widened over the series |
| Part.WritePart | storage/part.go:71-145 | index, both files and meta are the layout of the time-sorted data, in ascending order of series ID |
| Part.ReadSeriesBlock | storage/part.go:222-266 | a block reads as the block decoder says, a count mismatch being an error |
| Part.ReadPart | storage/part.go:165-218 | the wanted series clipped to the window, unless the meta rules the whole part out; an error exactly if a wanted block does not decode |
| Part.ReadPartAll | storage/part.go:270-309 | every series of the part; an error exactly if some block does not decode |
| Part.PartRoundTrip | storage/part.go:71-266 | raw and Gorilla parts alike hold exactly the series written, and every block reads back |
| Part.BlocksTile | storage/part.go:71-145 | in ID order the blocks follow one another from the start of both files to their end, without gap or overlap |
| Part.MetaOfLayout | storage/part.go:71-145 | SamplesCount is the number of samples written and SeriesCount that of series; MinTime and MaxTime enclose all samples and each is the time of one, or with no sample they are MaxInt64 and MinInt64; tier and encoding are those asked for |
| Part.BlocksAreEncoded | storage/part.go:84-126 | for each series the two files hold, where its entry points, its timestamp and value blocks, or in a raw part eight bytes a sample in each |
| Part.CountIsChecked | storage/part.go:222-266 | an entry whose count is not that of its blocks is an error |
| Part.ReachIsChecked | storage/part.go:222-266 | so is one that reaches past the end of a file |
| Part.PruningHidesNothing | storage/part.go:170-172 | a part skipped by its meta holds no sample of the window: reading with pruning equals filtering the content |
| Part.ClipLoop | storage/part.go:206-215 | exactly the samples with start <= t <= end, in order |
| Part.ClipIsWindow | storage/part.go:206-215 | the window includes both its ends, and clipping keeps the order |
| Labels.LabelKeyInjective | storage/series.go:41-43 | with no 0x01 in names, two label keys are equal only for equal labels |
| Labels.SortedLabelsEqual | storage/series.go:29-39 | two label lists sort to the same list exactly when they are permutations of each other |
| Labels.StrLessIsByteOrder | storage/series.go:29-39 | names and values compare byte by byte, a proper prefix first |
| Labels.SortedByName | storage/series.go:29-39 | labels are stored in ascending order of names, and of values under equal names |
| Labels.KnownKeys | storage/series.go:41-58 | the keys of job="api", in bytes |
| Labels.KeyIsIdentity | storage/series.go:45-58 | with no 0x01 in names and no 0x02 in values, two label lists have the same key exactly when they are permutations of each other |
| Labels.NameSeparatorCollides | storage/series.go:19-26 | a 0x01 in a name gives two different label sets the same key |
| Labels.ValueSeparatorCollides | storage/series.go:19-26 | so does a value in which a 0x02 is followed later by a 0x01, if what stands before and after that 0x02, read as two labels, is in sorted order |
| Labels.SharesKeyIff | storage/series.go:45-58 | exactly which label lists share their key with one that is no permutation: all of two or more labels, and those of one label with a 0x01 in its name or value; the partner of a clean list is one that is not clean |
| Series.ResolveKeeps | storage/series.go:106-128 | Resolve keeps keys and IDs inverse to each other, changes no ID already given and returns the ID of the key |
| Series.ResolveClean | storage/series.go:106-128 | the labels stored under the ID returned are the sorted labels asked for |
| Series.StableInjection | storage/series.go:101-128 | however the registry grows in between, two calls give the same ID exactly for permutations of the same labels |
| Series.FirstIDs | storage/series.go:106-128 | whatever lists a new registry is asked for, it gives out the IDs from 1 on without a gap, one for each different key, and all of them are pending |
| Series.AddInvertedHas | storage/series.go:249-264 | an ID becomes findable on that day under exactly its labels, and nothing else changes |
| Series.IndexKeeps | storage/series.go:207-211 | indexing keeps every (day, ID) indexed under all its labels and only those |
| Series.MatchIsExact | storage/series.go:286-323 | although days are united per matcher, the result is exactly the series indexed on some one day whose labels include every matcher |
| Series.LoadKeeps | storage/series.go:182-201 | replaying a forward record keeps the registry consistent and adds exactly that record |
| Series.LoadIdempotent | storage/series.go:176-201 | replaying a record twice changes nothing the second time |
| Series.Registry.Resolve | storage/series.go:106-128 | the fields end as the specification says |
| Series.Registry.DrainPending | storage/series.go:149-158 | hands out the pending registrations and clears them, nothing else |
| Series.Registry.TrackPending | storage/series.go:164-173 | the entries are pending again, nothing else changes |
| Series.Registry.LoadEntry | storage/series.go:182-201 | the fields end as the replay of one record says |
| Series.Registry.AddInvertedLocked | storage/series.go:249-264 | the loop over labels adds the ID under each of them |
| Series.Registry.UnindexedIDs | storage/series.go:215-226 | exactly the IDs not yet persisted for that day |
| Series.Registry.MarkIndexed | storage/series.go:231-237 | the IDs are persisted for that day, nothing else changes |
| Series.Registry.Load | storage/storage.go:326-379 | after replaying forward and inverted records the names are the forward records, and each day is indexed and persisted exactly as its records say |
| Series.Registry.DropDay | storage/series.go:276-284 | the day leaves the index and the persisted set, identities stay |
| Series.Registry.Match | storage/series.go:290-323 | strictly ascending, exactly the matching IDs, none for an empty matcher list |
| DayNames.DateRoundTrip | storage/partition.go:33-36 | counting days one by one on the calendar agrees with the closed day number |
| DayNames.KnownBoundary | storage/partition_test.go:80-89 | the boundary that test checks: dates and names |
| DayNames.DayStringText | storage/partition.go:33-36 | for the years 0000 to 9999 the name is eight digits that read as 10000 times the year plus 100 times the month plus the day |
| DayNames.DayNameText | storage/partition.go:33-36 | so for any day, with more digits past year 9999 and a minus sign before the year 0 |
| DayNames.KnownNames | storage/partition_test.go:60-77 | the first names of parts and segments, as text |
| DayNames.DayNamesOrder | storage/partition.go:33-36 | for the years 0000 to 9999 two timestamps have the same name exactly on the same UTC day, and names compare as days do |
| DayNames.NameMatches | storage/storage.go:389-397 | a day name is eight digits, so found again at Open, exactly for the years 0000 to 9999 |
| DayNames.Year10000SortsFirst | storage/partition.go:33-36 | past year 9999 the order of names fails |
| DayNames.PartitionsInRange | storage/storage.go:279-293 | the partitions whose names lie between those of start and end, in the order of their names; in the years 0000 to 9999 exactly the days of the window, ascending, so that none holding a sample of it is left out |
| DayNames.NameIsNumber | storage/partition.go:57-81 | a zero-padded part or segment name stands for one number only |
| DayNames.NextIndexSegmentSeq | storage/indexdb.go:143-159 | one past the number of the segment whose name sorts last, or 1 |
| DayNames.SegmentsWritten | storage/indexdb.go:54-141 | after i appends a directory holds the segments 1 to i, and never more than a million |
| DayNames.FreshSegmentIff | storage/indexdb.go:143-159 | the number given out next is that of no existing segment if and only if fewer than a million have been appended; from then on it is always 1000000, and each append replaces the one before |
| DayNames.MillionthSegmentHidden | storage/indexdb.go:143-159 | segment 1000000 sorts before 999999 |
| Selector.SplitLabelPairs | storage/query.go:163-184 | the loop with start, inQuote and escaped cuts the text at exactly the commas outside quotes |
| Selector.SplitIsSplit | storage/query.go:163-184 | the parts joined by commas give the text back, and no part has a comma outside quotes |
| Selector.SplitIsOnly | storage/query.go:163-184 | no other cutting does |
| Selector.ParseSelector | storage/query.go:105-161 | the loop gives the matchers in order, or the first error, as the specification says |
| Selector.FormatLabels | cmd/mmctl/main.go:138-153 | the loop prints the last metric name and the other labels in order |
| Selector.QuoteRoundTrip | cmd/mmctl/main.go:147 | any value comes back from its quoted form |
| Selector.PairRoundTrip | storage/query.go:138-155 | a printed pair parses as its label, with or without the space in front |
| Selector.SelectorRoundTrip | cmd/mmctl/main.go:137-153 | labels with a metric name anywhere among them, printed and parsed: the metric name and then all other labels in their order, whatever their values |
| Selector.UnnamedRoundTrip | cmd/mmctl/main.go:137-153 | without a metric name all labels in their order; with no label at all the text is empty |
| Selector.EarlierNameIgnored | cmd/mmctl/main.go:142-146 | of two metric names the last one counts |
| Selector.FormatFirst | cmd/mmctl/main.go:147-153 | the text of a metric name by itself and with one label |
| Selector.FormatGrows | cmd/mmctl/main.go:147-153 | each further label goes before the closing brace, after a comma and a space |
| Selector.KnownText | cmd/mmctl/main_test.go:41-58 | the label set that test finds printed |
| Selector.QuotePlain | cmd/mmctl/main.go:147 | a value without quotes, backslashes and control characters is quoted as it stands |
| Selector.QuoteEscapes | cmd/mmctl/main.go:147 | and those byte by byte, with the escapes of strconv.Quote |
| SelectorGrammar.PairReadsIff | storage/query.go:139-155 | a part is read as a matcher exactly if it is a name, an equals sign and a quoted value with any space around each, and adds nothing exactly if it is blank |
| SelectorGrammar.ParseIff | storage/query.go:105-160 | the language of selectors: a text is accepted, and with which matchers, if and only if it is a metric name by itself, or one or none followed by such parts in braces, cut at the commas outside quotes, with at least one matcher in all |
| SelectorGrammar.EmptyBraces | storage/query.go:139-142 | braces with nothing but space in them select the metric |
| Partitions.Partition.constructor | storage/partition.go:38-65 | the part list is the manifest, staging is gone, the next ID is one past the highest directory |
| Partitions.Partition.PublishPart | storage/partition.go:77-91 | takes the next ID; on success the directory of that ID decodes to the time-sorted data, on failure the disk is as before; a part that is put in place is in Gorilla encoding |
| Partitions.Partition.AddPart | storage/partition.go:67-101 | a new small part listed last; on each failure exactly what is left, a manifest that cannot be saved included; a part that is put in place is in Gorilla encoding |
| Partitions.Partition.SmallParts | storage/compaction.go:56-73 | exactly the listed parts of tier small, or an error exactly if a listed part has no directory; whether the partition has been dropped is not asked |
| Partitions.Partition.ReadNamed | storage/compaction.go:86-95 | every copy of every sample of the named parts, and nothing else; an error exactly if one of them has no directory |
| Partitions.Partition.MergeParts | storage/compaction.go:75-143 | the named parts, listed or not, give way to one big part that decodes to all they held, on a dropped partition as on any other; parts not named stay, and each failure leaves the old ones live; a part that is put in place is in Gorilla encoding |
| Partitions.Partition.Kept | storage/compaction.go:117-128 | the part list without the merged names and with the new one |
| Partitions.Partition.Scan | storage/query.go:57-76 | one locked scan adds each copy in the window of the wanted series exactly once, and nothing if the partition is dropped |
| Partitions.Partition.Drop | storage/retention.go:74-76 | the flag is set, the directory is gone |
| Partitions.WritesParts | storage/part.go:64-66 | the bytes writePart leaves decode to its input, sorted |
| Grouping.GroupByDay | storage/storage.go:205-216 | every day of the buffer, each with exactly its samples, series by series and in order |
| Contents.DayPartCount | storage/storage.go:205-216 | a day of a batch has each of its samples as often as the batch, and no other |
| Contents.SumMinus | storage/compaction.go:110-128 | the occurrences over a part list are those over the parts taken out and those over the rest |
| Storages.Storage.Open | storage/storage.go:76-100 | on any sound disk: the registry replays its segments, every partition opens with its manifest, memory is empty |
| Storages.Storage.Append | storage/storage.go:133-155 | resolves, indexes every day of the samples and buffers them under the ID of the labels; the disk is unchanged, and the call is a path of the state machine |
| Storages.Storage.PersistDayIndex | storage/storage.go:295-322 | the records of exactly the series not yet persisted that day are added, or nothing |
| Storages.Storage.GetPartition | storage/storage.go:265-277 | the open partition, or a new empty one |
| Storages.Storage.AddTo | storage/storage.go:232-235 | addPart in terms of the whole store |
| Storages.Storage.BeginFlush | storage/storage.go:186-200 | the buffer is swapped and the pending registrations are on disk, or both are as before |
| Storages.Storage.FlushDay | storage/storage.go:217-235 | one day goes from the hands of the flush to disk, or back to the buffer; a manifest that cannot be saved leaves it in both |
| Storages.Storage.Compact | storage/compaction.go:39-54 | below the threshold nothing happens; else the small parts of the day, and no others, give way to one big part with all they held, or the failure leaves them live; every sample is in memory and in listed parts as often as before, and none less often on disk |
| Storages.Storage.Flush | storage/storage.go:177-243 | on success everything buffered is on disk once more than before and the buffer is empty; on a failure the published days are on disk, the failed day is back in the buffer and the days not reached are gone; if the manifest was what failed, that day is in a listed part as well; in every case the store is in good order for the calls to come; the days published are those of the buffer, and each has got exactly one small part with its samples and then, if that makes the threshold of small parts, a merge of them all; every other day is untouched but the one that failed |
| DayTurns.FlushMerges | storage/storage.go:232-240 | what a published day gains: with fewer than the threshold of small parts, the new one counted, one part and one ID; from the threshold on two IDs, the second for the merge, after which no small part is left, or, if it failed, the old ones and the new one |
| Storages.Storage.ForceMerge | storage/compaction.go:16-31 | on success no day has two small parts left: each that had has one big part with all they held in their place, and each other day is untouched; on a failure some days are merged, one has failed and the rest are untouched; every sample is in memory and in listed parts as often as before |
| Storages.Storage.ApplyRetention | storage/retention.go:39-95 | exactly the days whose names sort before that of the cutoff lose directory, inverted index and registry entries, and nothing else changes; if the clock shows a year up to 9999 and the cutoff does not wrap, or wraps to the beginning of time, the open days of the years 0000 to 9999 that stay and go are the right ones |
| Storages.Storage.ScanDays | storage/query.go:55-77 | of the wanted series exactly what the listed parts hold in the window |
| Storages.Storage.QueryRange | storage/query.go:36-101 | matching series in ascending order of ID with their labels, samples sorted by time, each as often as listed parts and buffer hold it, and nothing else |
| Storages.AnswerIsTheLog | storage/query.go:36-101 | such an answer, for a window from the largest cutoff on and after any run, has one result for each matching series of which the log holds a sample in the window, ascending by ID, and in it exactly those samples, sorted by time and each as often as the log holds it |
| Storages.CallsAnswerTheLog | storage/query.go:36-101 | so has the answer of QueryRange after any calls that follow a run |
| EnginePaths.FlushDayPath | storage/partition.go:67-101 | staging, rename and manifest are three steps that together move one day to disk |
| EnginePaths.FlushUnsavedPath | storage/partition.go:93-100 | a flush whose manifest cannot be saved is a path of steps too |
| EnginePaths.MergePath | storage/compaction.go:75-143 | a whole merge is a path of steps that changes no count of what memory and listed parts hold |
| EnginePaths.RetentionPath | storage/retention.go:53-95 | a whole pass is a path of steps |
| EnginePaths.OpenContinues | storage/storage.go:76-100 | opening what a stopped process left is one more step of its run |
| EnginePaths.ReachesRuns | storage/storage.go:44-74 | calls one after another extend a run, so all that holds of every run holds of them |
| EngineInvariant.StepKeeps | storage/storage.go:44-74 | every step of the engine, crash and failed manifest included, keeps the invariant that joins registry, index, buffer, parts, manifests and the operations under way |
| EngineInvariant.ReopenedInv | storage/storage.go:76-100 | opening what a crash leaves, at any point, gives a store in good order |
| EngineLedger.StepTally | storage/storage.go:182-243 | each step does to every sample exactly what its event does to an append-only log, in buffer, flush, listed parts and disk |
| Program.FlushInside | storage/compaction.go:18-31 | in a day a merge of a dropped partition has written to, a step of a flush is, to all the other days, the step of a flush that has got no further than the index of its day |
| Program.MoveKeeps | storage/compaction.go:18-143 | every move of the program, a merge through a partition that retention has dropped among them, keeps the engine in good order but for the days such merges have written to, and those before the cutoff, open and durably named |
| Program.RunGood | storage/compaction.go:18-143 | so it is at every point of every run |
| ProgramListed.ListedIff | storage/compaction.go:75-143 | at every point of a run all parts in the manifest of a day are listed and all listed parts have their directories, if and only if no merge of a dropped partition of that day has saved its manifest in the run |
| ProgramListed.SwapBreaks | storage/compaction.go:128-135 | that save names a part the open partition does not list |
| DroppedMerge.MergeOfDroppedLoses | storage/compaction.go:18-31 | for every label list and sample there is a run in which such a merge leaves listed parts without directories and the day unreadable, and the next successful flush loses copies that were on disk |
| ProgramLedger.MoveTally | storage/compaction.go:18-143 | every move does to every sample in memory exactly what its event does to the log, and to those in the parts of every day that no merge of a dropped partition has written to |
| ProgramLedger.RefinesLog | storage/storage.go:36-74 | in every run, with crashes and interleavings anywhere, the program holds of every sample exactly the copies the log says, in buffer, flush, listed parts and disk; only the parts of a day written to by a merge of a dropped partition are left open |
| ProgramLedger.UsedWasDropped | storage/retention.go:62-78 | only a day that retention has dropped in the run can be such a day |
| ProgramLedger.UsedIsOld | storage/retention.go:62-78 | and it lies before the largest cutoff |
| ProgramLedger.NothingLostOrDuplicated | storage/storage.go:177-243 | without crash, failed day and expiry, the copies held are exactly those appended, whatever merges of dropped partitions run |
| ProgramLedger.DiskKept | storage/compaction.go:75-143 | what is on disk stays there, in the same number unless a manifest of its day is saved, until retention drops its day, if no merge of a dropped partition has written to the day; across a reopening for days of the years 0000 to 9999, whose directories are found again (DayNames.NameMatches) |
| ProgramLedger.FlushIsDurable | storage/storage.go:177-243 | what was buffered when a successful flush began is on disk once more, and stays through every later crash, under the same conditions, the day being one of the years 0000 to 9999 if there is a crash |
| EngineQuery.StoredIsMatched | storage/series.go:286-323 | from the largest cutoff on, a stored series is found by every matcher list its labels satisfy |
| EngineQuery.QuerySeesOnce | storage/query.go:52-87 | among any appends, flushes, merges and retention, a query that ends returns every copy that was on disk when it began and not yet expired, and no sample more often than the engine holds it |
| EngineQuery.QuietQueryIsExact | storage/query.go:36-101 | a query that nothing interrupts returns exactly the copies of the matching series in the window |
| EngineTheorems.DurableAtEveryPoint | storage/storage.go:191-225 | at every point of every run each listed part has its directory unless a merge of a dropped partition of that day has saved its manifest, part IDs still to come are new in every day none has written to, and every series of every directory has a forward record with its labels and an inverted record of that day |
| EngineTheorems.CrashKeepsManifests | storage/partition.go:38-65 | after a crash and reopening each day is exactly its manifest, staging is gone and new part IDs are above every directory; the manifest names directories that are there, under the same condition |
| EngineTheorems.LostIdsAreFree | storage/series.go:176-201 | IDs lost in a crash, and all IDs still to be given out, occur in no part and no inverted index |
| EngineTheorems.Conserved | storage/storage.go:177-243 | over runs of appends, flushes, merges, retention and clean reopening, the copies held from the cutoff on are exactly those appended |
| EngineTheorems.QueryReturnsTheLog | storage/query.go:36-101 | after any run, an uninterrupted query whose window starts at or after every cutoff returns exactly what the log says, series by series |
| EngineTheorems.QueryReturnsNoOther | storage/query.go:36-101 | and nothing outside its window, nor of unregistered series |
| EngineTheorems.QueryReturnsAllAppended | storage/query.go:36-101 | and if no move lost anything, every copy ever appended |
| EngineTheorems.RecentIsReadable | storage/query.go:62-71 | a scan fails for want of a directory only on days before the largest cutoff |
| EngineTheorems.FlushPhase | storage/storage.go:186-240 | during a flush the samples it took are in its hands until their day is published, and then on disk with all that was listed and not saved |
| EngineTheorems.FailedFlushAccount | storage/storage.go:217-235 | a flush that fails at a day: published days on disk, that day back in the buffer, days not visited gone |
| EngineTheorems.FailedRegistryAccount | storage/storage.go:195-200 | a registry segment that fails restores the whole buffer and leaves no series forgotten |
| EngineTheorems.FailureConservesIff | storage/storage.go:217-235 | in every reachable state, a flush failing at a day loses nothing if and only if no other day was left to visit |
| EngineTheorems.OneDayFailureLosesNothing | storage/storage.go:217-235 | a buffer that spans one day, no merge of a dropped partition having written to it, is conserved by a failing flush |
| EngineTheorems.ManifestFailureDoubles | storage/partition.go:93-100 | when the manifest cannot be saved each copy of that day that the flush had taken is in the buffer and in a listed part, and on disk as often as before |
| EngineTheorems.UnsavedBecomesDurable | storage/partition.go:93-100 | once the next flush has published the day, each of those copies is on disk twice |
| EngineTheorems.UnsavedIsLost | storage/partition.go:38-65 | if the process ends before any manifest of the day is saved, none of them is on disk |
| Cutoffs.InRangeIff | storage/retention.go:57 | the int64 cutoff does not overflow exactly if R <= (now + 2^63) / 86400000, which for a clock after 1970 any R up to 106751991167 meets |
| Cutoffs.CutoffSeparatesIff | storage/retention.go:54-57 | with the product and difference of int64, every t >= now - R days is at or after the cutoff day and every t a day older before it, if and only if the cutoff does not overflow or wraps to the first day of all |
| Cutoffs.DropsRightlyIff | storage/retention.go:54-70 | and by the comparison of names the program makes, for a clock up to the year 9999 and samples of the years 0000 to 9999: no sample within the retention period expires and every one a day older does, if and only if the cutoff does not overflow or wraps to a time before the second day of the year 0000 |
| Cutoffs.WrappedCutoffDropsAll | cmd/marchimetrics/main.go:37-50 | an input that fails: with 180600000000 days of retention, which are accepted, on 21 September 2026 every partition before the year 9000 is dropped, although all of it is within the period |
| EngineTheorems.RetentionRemovesOld | storage/retention.go:53-95 | when a pass ends, every flushed sample a day older than the retention period is gone, whatever ran alongside, under the condition of DropsRightlyIff |
| EngineTheorems.RetentionSparesRecent | storage/retention.go:53-95 | and under the same condition a pass drops no day with a sample within the period |
| EngineTheorems.RetentionKeepsRecent | storage/retention.go:53-95 | samples at or after every cutoff stay on disk through any moves |
| EngineTheorems.IdentityIsPermanent | storage/series.go:276-284 | a durable series keeps its labels through retention, merges, crashes and reopening |
| EngineTheorems.AlwaysFindable | storage/storage.go:345-379 | from the largest cutoff on, whatever is stored can be found by label, in any state of any run |
| LateSample.LateSampleLost | storage/series.go:276-284 | for every label list, sample and later cutoff there is a run, an append, a flush, the same append again and a pass of retention, that ends with the sample in the buffer under its labels and with no matcher list finding it |
| LateSample.FindableIff | storage/series.go:276-323 | the samples that can be found by label in every run with a given cutoff are exactly those that are not before it; earlier ones may still be found where a late append or another day has indexed their series |
| EngineTheorems.MergeSwapsExactly | storage/compaction.go:110-143 | the swap of a live merge lists one new part with all the samples of its inputs and keeps every other part, those published since included |
| EngineTheorems.MergedSampleCount | storage/compaction.go:75-143 | the sample count of the big part is the sum of those of its inputs |

## Left out

- HTTP handlers, remote write, protobuf, flags, tickers, goroutines and the rest of mmctl: no hard property.
- JSON: part meta, series index and manifest are typed values, written whole as their temporary file and rename make them.
- Index segments inside the engine: the machine and the storage object keep the union of the entries; `IndexFiles.FilesReplay` ties that union to the bytes, as long as no segment replaces another, which is until a directory has had a million (`DayNames.FreshSegmentIff`). Their temporary files have no state of their own.
- Engine.Next: steps stand for completed file operations. Power loss, fsync, partly removed directories and file system errors other than failing writes, renames and reads are not modelled.
- Engine.Next: locks are not variables. Every section under a lock is one step, and the flush, merge and retention locks are the conditions under which those begin. What is held without a lock is modelled where it matters: the dropped partitions of a forced merge are the handles of `Program`, and a query may skip a day before the cutoff, as it does when the partition it found has been dropped. One flush, one merge, one retention pass and one query run at a time, any number of appends.
- Program.Moves: when a flush and a merge of a dropped partition stage a part under the same name, the staging directory has the content written last, not a mixture of both. A partition once dropped may be merged any number of times, whether or not some call still holds it.
- Engine.Next: days are numbers here and names in the program; `DayNames.DayNamesOrder` shows that to be the same for the years 0000 to 9999. Open passes over the directories of other days (`storage/storage.go:396`, `DayNames.NameMatches`), which the machine opens. Parts are numbered, their names being `DayNames.NameIsNumber` of them.
- EngineQuery.QuietQueryIsExact: counts, not order. Order is in `Storages.AnswerIsTheLog`: ascending IDs, samples sorted by time. Among equal timestamps any order is allowed, as sort.Slice allows.
- Storages.Storage: one call at a time. The ID counter is a natural number, not a uint64. A flush visits the days of its batch in any order, as Go's map iteration may, so what a failing flush loses is stated for every order; elsewhere ascending order stands for map iteration, what is proved not depending on it. QueryStats are not kept.
- Partitions.Partition: each object has its directory to itself, and opens one whose manifest names only directories that are there. Two objects of one day that share a directory, which takes a merge of a dropped partition, are modelled in `Program` only.
- Partitions.Partition.PublishPart: a part with 2^63 samples of one series or more fails to be written, since no file holds it.
- ValueCodec.DecodeValues: arbitrary damaged blocks may make the Go code shift by a negative amount, which is Panic here; the preallocation of a slice by the stored count is not modelled.
- Selector.QuoteRoundTrip: strconv.Quote and strconv.Unquote on double-quoted text byte by byte; bytes from 128 on are copied, so the \u escapes of unprintable runes, octal escapes, and the backquoted and single-quoted literals Unquote also accepts are not modelled. White space is ASCII white space.
- Floating point: values are 64-bit words without meaning.
