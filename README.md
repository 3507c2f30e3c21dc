# Music catalog merge and compare tools, modelled in Dafny

The repository is a set of Node.js scripts for JSON music catalogs. A catalog is an array of
track records (`name`, `artist`, `album`, `id`, `ext`, `bitrate`), or an object whose `data`
member holds that array. This project models three of the scripts:

- `scripts/lib/merge.js` merges a secondary catalog into a main one. It computes an identity
  key per record (`generateSongKey`, under the "id", "name+artist+album" or "name+album"
  strategy). It classifies each secondary record as new or duplicate (`analyzeDifferences`)
  and builds the merged list (`mergeData`): the new records, optionally sorted by album and
  name, go at the start or the end. It saves the result in the shape the main document had
  (`readJsonFile`, `saveMergedData`), folds several secondary catalogs in turn
  (`batchMerge`), and renders a preview (`generatePreview`) and a merge report
  (`generateMergeReport`).
- `scripts/lib/compare.js` summarises each catalog by album (`analyzeAlbums`). It compares
  two summaries (`compareDifferences`): albums only in one file, common albums, and songs
  only in one file, keyed by `name@@album`. It renders a comparison report (`formatReport`).
- `scripts/mergeTopSummary.js` merges two lists of artist records by `id`
  (`mergeArtistCollections`). Later records are shallow-merged over earlier ones with the
  same id. The result is sorted by descending `count`, then by `name`.

How the JavaScript behaviour is represented:

- Records are datatypes (`Tracks.Song`). A missing field, `null` and a string are
  distinguished, because template literals render them as "undefined", "null" and the
  string.
- A JavaScript `Map` is an ordered map (`Js.OrderedMap`): its entries, and its keys in
  insertion order. `Object.keys` order is modelled too: integer-like keys come first,
  ascending, then the others in creation order.
- `Array.prototype.sort` is a stable sort by a key under a total order (`Seqs.SortByKey`).
- Each report is the sequence of its pushed lines. A line is a value that records what it
  says: its counts, names and records.
- The loops of the scripts are methods. Each is proved equal to a specification function,
  and the properties the scripts promise are proved about those functions.

Modules:

- `Orders` holds string order and total orders.
- `Seqs`, `Js` and `Tracks` hold the shared helpers and the record model.
- `Merge` and `MergeReport` model merge.js.
- `Compare` and `CompareReport` model compare.js.
- `TopSummary` models mergeTopSummary.js.

## Model

| member | source | states |
|---|---|---|
| Tracks.AlbumOf | scripts/lib/compare.js:67 | the album bucket is the album if it is a non-empty string, else "未知专辑"; it is never empty |
| Tracks.AlbumsSpec | scripts/lib/compare.js:66-85 | the albums in bucket-creation order occur once each, and are exactly the albums of the records |
| Js.DigitsRoundTrip | scripts/lib/compare.js:190-192 | the decimal rendering of a natural number parses back to that number |
| Js.DecimalInjective | scripts/lib/compare.js:254-255 | two integers with the same decimal rendering are equal |
| Js.ObjectKeys | scripts/lib/compare.js:114 | `Object.keys` lists exactly the created keys (same multiset) |
| Js.ObjectKeysOrder | scripts/lib/merge.js:243 | in `Object.keys`, integer-like keys come before all other keys, in ascending numeric order |
| Js.ObjectKeysOthersLast | scripts/lib/merge.js:243 | in `Object.keys`, the keys that are not integer-like come after all integer-like keys, listed as `OtherKeys` lists them |
| Js.OtherKeysKeepOrder | scripts/lib/merge.js:243 | the keys that are not integer-like keep creation order: the key created at p sits right after the other keys created before it, so p < q puts it earlier |
| Js.OrderedMap.Set | scripts/mergeTopSummary.js:63 | `Map.set` updates the entry; a new key is appended to the key order and an existing key keeps its place |
| Orders.StrLeIsTotalOrder | scripts/lib/compare.js:118-120 | the string order used for sorting is reflexive, antisymmetric, transitive and total |
| Orders.PairLeIsTotalOrder | scripts/lib/merge.js:190-194 | album-then-name order is a total order |
| Orders.RankLeIsTotalOrder | scripts/mergeTopSummary.js:69-76 | count-descending-then-name order is a total order |
| Seqs.SortByKey | scripts/mergeTopSummary.js:69 | sorting keeps length and multiset |
| Seqs.SortSorted | scripts/lib/merge.js:190-194 | under a total order, the sorted list is sorted by the key |
| Seqs.SortStable | scripts/lib/merge.js:190-194 | sorting is stable: the records with any one key keep their relative order |
| Seqs.SortedUnique | scripts/lib/compare.js:118-120 | two lists sorted stably by the same key, with the same records per key, are equal |
| Merge.IdKeysEqual | scripts/lib/merge.js:86-96 | under "id", two records share a key iff their ids render alike |
| Merge.MissingIdsCollide | scripts/lib/merge.js:86-96 | a missing id and the string "undefined" give the same key "id_undefined" |
| Merge.NumericAndStringIdsCollide | scripts/lib/merge.js:86-96 | id 12 and id "12" give the same key |
| Merge.UnknownStrategyIsNameAlbum | scripts/lib/merge.js:86-96 | any strategy other than the two named ones keys by `name@@album` |
| Seqs.NoSeparatorSplit | scripts/lib/merge.js:86-96 | when the first part has no '@', `a@@b` splits uniquely back into its parts |
| Merge.NameAlbumKeysEqual | scripts/lib/merge.js:86-96 | when names have no '@', two records share a "name+album" key iff they have the same name and album renderings |
| Merge.SeparatorInFieldCollides | scripts/lib/merge.js:86-96 | names or albums holding "@@" let two different records share a key |
| Merge.KeyMapDomain | scripts/lib/merge.js:141-145 | the main map holds the key of every main record and no other key |
| Merge.KeyMapLastWins | scripts/lib/merge.js:141-145 | the main map holds, under a key, the last main record with that key |
| Merge.AnalyzeDifferences | scripts/lib/merge.js:135-174 | the loops compute the counts, the new songs and duplicates of the specification; new + duplicate = secondary count |
| Merge.SecondaryPartition | scripts/lib/merge.js:151-165 | every secondary record is either new or a duplicate |
| Merge.FreshSongsMembers | scripts/lib/merge.js:151-165 | a record is kept as new iff it is a secondary record whose key is not a main key |
| Merge.NewIffKeyAbsent | scripts/lib/merge.js:151-165 | a record is new iff it is a secondary record and no main record has its key |
| Merge.NewSongsAppend | scripts/lib/merge.js:151-165 | the classification is per record: new songs of a + b are those of a, then those of b |
| Merge.RepeatedFreshRecordBothNew | scripts/lib/merge.js:151-165 | a secondary record repeated twice, absent from main, is added twice (secondary keys are not checked against each other) |
| Merge.DuplicateEntriesShape | scripts/lib/merge.js:151-165 | each duplicate pairs a secondary record with the main record stored under its key |
| Merge.SongsToAdd | scripts/lib/merge.js:188-195 | the songs to add are a permutation of the new songs; unchanged when unsorted, sorted by album then name otherwise |
| Merge.SongsToAddStable | scripts/lib/merge.js:189-195 | sorting keeps the relative order of songs with the same album and name |
| Merge.MergeData | scripts/lib/merge.js:184-205 | the result is mainData with the songs to add before it when the position is "start", and after it otherwise |
| Merge.MergeIdempotent | scripts/lib/merge.js:135-205 | analysing the same secondary records against the merged list finds nothing new |
| Merge.ReadJson | scripts/lib/merge.js:59-77 | the file is array-format iff the document is a bare array |
| Merge.SaveMergedData | scripts/lib/merge.js:262-270 | the saved document is an array iff `isArrayFormat` |
| Merge.SaveReadRoundTrip | scripts/lib/merge.js:262-270 | reading a saved document back gives the merged records and the saved shape |
| Merge.ShapeMirrored | scripts/lib/merge.js:359 | the saved document has the shape of the main document |
| Merge.BatchResults | scripts/lib/merge.js:542-570 | one result per secondary file |
| Merge.BatchMerge | scripts/lib/merge.js:534-587 | the loop computes the per-file results, the total added, the saved document and the final count of the fold |
| Merge.BatchCount | scripts/lib/merge.js:534-587 | the final count is the initial count plus the sum of the per-file new counts |
| Merge.BatchPrefix | scripts/lib/merge.js:542-570 | the first n results depend only on the first n files |
| Merge.BatchStepAgainstAccumulated | scripts/lib/merge.js:546-550 | each file is analysed against the records accumulated so far, not the original main records |
| Merge.BatchStepIdempotent | scripts/lib/merge.js:546-558 | repeating a step with the same records adds nothing and leaves the list unchanged |
| Merge.BatchRepeatAddsNothing | scripts/lib/merge.js:542-570 | the same file given twice adds nothing the second time |
| MergeReport.GroupMapSpec | scripts/lib/merge.js:234-241 | the groups are keyed by exactly the albums of the new songs; each group is that album's songs, in order |
| MergeReport.GroupByAlbum | scripts/lib/merge.js:234-241 | the grouping loop builds the group map, with keys in creation order |
| MergeReport.SortedAlbumsSpec | scripts/lib/merge.js:243 | the listed albums are strictly ascending and are exactly the albums of the new songs |
| MergeReport.ObjectKeysThenSort | scripts/lib/merge.js:243 | sorting the `Object.keys` of the groups gives the sorted albums, whatever the creation order |
| MergeReport.GroupMapAsWritten | scripts/lib/merge.js:234-241 | the grouping as written fails iff some album is an inherited `Object.prototype` name; otherwise it is the group map |
| MergeReport.ConstructorAlbumThrows | scripts/lib/merge.js:237-240 | a record with album "constructor" makes the grouping as written fail, while the intended grouping files it |
| MergeReport.PositionLabelAsWritten | scripts/lib/merge.js:423 | the report says "end" only for "end" and "start" for every other value |
| MergeReport.PositionLabelAgrees | scripts/lib/merge.js:198-202 | the corrected label says "start" iff the merge puts new songs first, and "end" iff it puts them last |
| MergeReport.PositionLabelAsWrittenMislabels | scripts/lib/merge.js:423 | for an empty position, the label as written says "start" while the merge appends at the end |
| MergeReport.ReportPlacement | scripts/lib/merge.js:423 | the report's one position line matches where `mergeData` puts the new songs for "start" and "end", and says "start" for any other value while the songs go to the end |
| MergeReport.PushGroup | scripts/lib/merge.js:244-247 | pushes one album header and its numbered song lines |
| MergeReport.PushSections | scripts/lib/merge.js:243-248 | pushes the sections of the given albums in order |
| MergeReport.PushListing | scripts/lib/merge.js:232-249 | pushes the preview listing of the sorted albums |
| MergeReport.GeneratePreview | scripts/lib/merge.js:213-253 | the preview lines are the specification's: statistics, then the grouped new songs when there are any |
| MergeReport.GenerateMergeReport | scripts/lib/merge.js:390-465 | the report lines are the specification's, with the position line as merge.js:423 writes it |
| MergeReport.PushSongDetails | scripts/lib/merge.js:448-458 | pushes the report's album sections |
| MergeReport.GroupedListing | scripts/lib/merge.js:243-249 | the listing headers tally each sorted album with its count; the listed songs are a permutation of the new songs; the counts sum to their number |
| MergeReport.PreviewGroups | scripts/lib/merge.js:229-250 | the preview lists every new song once under its album header; it lists nothing when there are none |
| MergeReport.ReportGroups | scripts/lib/merge.js:427-458 | the report lists every new song once under its album header; it lists nothing when there are none |
| MergeReport.ReportAlbumCount | scripts/lib/merge.js:444 | the printed album count is the number of album sections |
| MergeReport.MissingAlbumUnderSentinel | scripts/lib/merge.js:236 | a song without an album is listed under "未知专辑" |
| MergeReport.ReportedTotalIsMergedLength | scripts/lib/merge.js:417 | the merged total in preview and report is the length of the list `mergeData` returns |
| MergeReport.SortedAlbumsCover | scripts/lib/merge.js:243-248 | the sorted albums are distinct, all grouped, and together cover every new song |
| Compare.Infos | scripts/lib/compare.js:78-84 | one info per record, in order |
| Compare.AnalyzeAlbums | scripts/lib/compare.js:62-93 | the loop builds the album counts and song lists of the specification summary |
| Compare.SummaryDomain | scripts/lib/compare.js:66-85 | counts and song lists are keyed by exactly the albums of the records |
| Compare.SummarySpec | scripts/lib/compare.js:66-85 | an album's count is the number of its records, and its song list is their infos in order |
| Compare.CountsTotal | scripts/lib/compare.js:87-92 | the album counts sum to the number of records (`totalSongs`) |
| Compare.BucketsMatchCounts | scripts/lib/compare.js:71-84 | each album's song list has its count as length, and the count is positive |
| Compare.MissingAlbumCounted | scripts/lib/compare.js:67 | a record without an album is counted and listed under "未知专辑" |
| Compare.SummarizeAsWritten | scripts/lib/compare.js:71-75 | the summary as written fails iff some album is an inherited `Object.prototype` name; otherwise it is the summary |
| Compare.ToStringAlbumThrows | scripts/lib/compare.js:71-84 | a record with album "toString" makes the summary as written fail, while the intended summary counts it once |
| Compare.GenerateKeyInjective | scripts/lib/compare.js:102-104 | when neither rendered name holds '@', two songs share a `name@@album` key iff their names render alike and their albums are equal |
| Compare.GenerateKeyAmbiguous | scripts/lib/compare.js:102-104 | "a@@b" in album "c" and "a" in album "b@@c" share a key |
| Compare.Tag | scripts/lib/compare.js:129 | `{ ...song, album }` carries the album and the song info unchanged |
| Compare.Tagged | scripts/lib/compare.js:127-130 | one tagged entry per song, in order |
| Compare.Among | scripts/lib/compare.js:118-120 | the filter keeps exactly the elements whose membership in the other list is as asked, and keeps distinctness |
| Compare.AlbumDiffMembers | scripts/lib/compare.js:114-120 | the album lists hold exactly the albums only in file 1, only in file 2, and in both |
| Compare.AmongPartition | scripts/lib/compare.js:118-120 | every album of a file is either only there or common |
| Compare.AlbumDiffOrdered | scripts/lib/compare.js:118-120 | each album list is strictly ascending, and the albums of each file split between "only" and "common" without loss |
| Compare.AlbumDiffSwap | scripts/lib/compare.js:113-120 | swapping the files swaps the two "only" lists and keeps the common list |
| Compare.Fill | scripts/lib/compare.js:123-138 | the song map built by `Map.set` is well formed |
| Compare.FillAt | scripts/lib/compare.js:123-138 | a key is in the song map iff some entry has it, and then it maps to the last such entry |
| Compare.FillAlbum | scripts/lib/compare.js:127-130 | the inner loop adds an album's tagged songs to the map |
| Compare.FillAlbums | scripts/lib/compare.js:126-131 | the outer loop fills the map from the albums in `Object.entries` order |
| Compare.BuildSongMap | scripts/lib/compare.js:123-138 | builds the song map of a summary |
| Compare.CollectUnmatched | scripts/lib/compare.js:144-148 | the loop collects the entries of the first map whose key the second lacks, in map order |
| Compare.CompareDifferences | scripts/lib/compare.js:113-167 | the result is the specification's album and song differences |
| Compare.TaggedMembers | scripts/lib/compare.js:127-130 | an entry is tagged iff it carries the album and one of its songs |
| Compare.FlattenMembers | scripts/lib/compare.js:126-138 | the flattened entries are exactly the tagged songs of the listed albums |
| Compare.RecordEntry | scripts/lib/compare.js:129 | a record's entry has the record's `name@@album` key |
| Compare.InfosMembers | scripts/lib/compare.js:78-84 | the infos are exactly those of the records |
| Compare.FlattenSummary | scripts/lib/compare.js:123-138 | the entries fed to the song map are exactly those of the catalog's records |
| Compare.FillOfRecords | scripts/lib/compare.js:123-138 | the song map has a key iff a record has it, and then it maps to one such record's entry |
| Compare.SongMapOfData | scripts/lib/compare.js:123-138 | the same for the map built from a catalog's summary |
| Compare.UnmatchedKeys | scripts/lib/compare.js:144-148 | the unmatched entries follow the order and number of the unmatched keys |
| Compare.UnmatchedMembers | scripts/lib/compare.js:144-148 | an entry is unmatched iff its key is in the first map and not in the second |
| Compare.OnlyInFirstSound | scripts/lib/compare.js:144-163 | each song listed only in file 1 is a file-1 record whose key file 2 lacks |
| Compare.OnlyInFirstComplete | scripts/lib/compare.js:144-163 | every file-1 record whose key file 2 lacks is listed |
| Compare.MissingKeys | scripts/lib/compare.js:144-148 | the unmatched keys are the keys of file 1 minus those of file 2 |
| Compare.OnlyInFirstCount | scripts/lib/compare.js:144-163 | one listed song per key of file 1 missing from file 2 |
| Compare.SongsOnlyInFirst | scripts/lib/compare.js:113-167 | for two catalogs, the "only in file 1" songs are sound, complete, one per missing key, and sorted by album |
| Compare.SongMapRecords | scripts/lib/compare.js:123-138 | the map built from a catalog maps every key to a record of that catalog |
| Compare.CompareSwap | scripts/lib/compare.js:113-167 | comparing the other way round swaps every "only" list |
| CompareReport.SignedSign | scripts/lib/compare.js:200-201 | the signed rendering starts with '+' iff positive and '-' iff negative, and is "0" iff zero |
| CompareReport.SignedInjective | scripts/lib/compare.js:200-201 | different differences render differently |
| CompareReport.AlbumRows | scripts/lib/compare.js:217-219 | one numbered row per song, numbered from 1 |
| CompareReport.PushAlbumRows | scripts/lib/compare.js:217-219 | the row loop pushes those rows |
| CompareReport.PushAlbumBlock | scripts/lib/compare.js:213-224 | pushes an album line, its rows and a blank line |
| CompareReport.PushAlbumBlocks | scripts/lib/compare.js:213-224 | pushes the blocks of the listed albums in order |
| CompareReport.PushOnlyAlbums | scripts/lib/compare.js:210-225 | pushes the heading and blocks, or the "none" line when the list is empty |
| CompareReport.PushCommonBlock | scripts/lib/compare.js:251-263 | pushes a common album's count line, the warning when needed, and a blank |
| CompareReport.PushCommon | scripts/lib/compare.js:246-264 | pushes the common-albums heading and blocks |
| CompareReport.PushSong | scripts/lib/compare.js:278-285 | pushes an album header when the album changes, then the song bullet, and returns the new current album |
| CompareReport.PushRuns | scripts/lib/compare.js:278-286 | the bullet loop pushes the runs of the specification |
| CompareReport.PushOnlySongs | scripts/lib/compare.js:273-290 | pushes the heading and runs, or the "none" line when the list is empty |
| CompareReport.PushAlbumDetails | scripts/lib/compare.js:204-264 | pushes both "only" album sections and the common section |
| CompareReport.PushSongDetails | scripts/lib/compare.js:267-310 | pushes the song-details heading and both "only" song sections |
| CompareReport.FormatReport | scripts/lib/compare.js:179-324 | the report lines are the specification's |
| CompareReport.RunBullets | scripts/lib/compare.js:278-286 | the bullets list the songs, in order |
| CompareReport.RunHeadersCover | scripts/lib/compare.js:278-286 | the album headers name exactly the songs' albums, and the last header is the current album |
| CompareReport.RunHeadersOnce | scripts/lib/compare.js:278-286 | for songs sorted by album, each album header appears once |
| CompareReport.NewRunNewAlbum | scripts/lib/compare.js:279-283 | in a sorted list, a song starting a new run has an album no earlier song has |
| CompareReport.OnlySongsSectionSpec | scripts/lib/compare.js:273-290 | the section lists the songs as bullets, heads them with their count, and is the "none" line when they are empty |
| CompareReport.AlbumBlocksListed | scripts/lib/compare.js:213-224 | the album lines name the listed albums, in order |
| CompareReport.AlbumBlockOfCatalog | scripts/lib/compare.js:213-224 | for a catalog, the block shows the album's record count and one numbered row per record, in order |
| CompareReport.CommonBlockSpec | scripts/lib/compare.js:251-263 | a common block shows both counts and their difference, with a warning iff the counts differ or one is missing |
| CompareReport.DiffTextSign | scripts/lib/compare.js:254-255 | the difference renders "NaN" iff a count is missing; otherwise it is signed by the comparison of the counts, and "0" iff they are equal |
| CompareReport.CommonBlocksListed | scripts/lib/compare.js:251-264 | the common blocks name the common albums, in order |
| CompareReport.ReportReadyForCatalogs | scripts/lib/compare.js:210-243 | for summaries of catalogs, every listed album has its song list |
| CompareReport.CommonAlbumOfCatalogs | scripts/lib/compare.js:251-263 | for two catalogs, a common album's block shows the numbers of its records in each |
| CompareReport.CommonCounts | scripts/lib/compare.js:251-263 | with both counts present, the count line carries them and their difference, and the warning appears iff they differ |
| CompareReport.CountOfCatalog | scripts/lib/compare.js:214 | a catalog album's count is present and is the number of its records |
| CompareReport.SongRunsOfCatalogs | scripts/lib/compare.js:273-290 | for two catalogs, the section lists every "only" song, with one header per album, covering exactly their albums |
| CompareReport.OnlyInFirstListed | scripts/lib/compare.js:163 | the "only" songs all have an album and are sorted by album |
| TopSummary.ObjectKeysMembers | scripts/mergeTopSummary.js:63 | spread copies the own keys of the source |
| TopSummary.CopyPropsEntry | scripts/mergeTopSummary.js:63 | after copying a list of names, a copied name holds the source's value and any other keeps the target's |
| TopSummary.CopyAll | scripts/mergeTopSummary.js:63 | copying every own key gives the target's entries overridden by the source's |
| TopSummary.CopyPropsKeys | scripts/mergeTopSummary.js:63 | copying keeps the target's keys as a prefix |
| TopSummary.Spread | scripts/mergeTopSummary.js:63 | `{ ...target, ...source }` has the target's entries overridden by the source's, with the target's keys first |
| TopSummary.Absorb | scripts/mergeTopSummary.js:54-64 | the map after one `handleInsert` is well formed, with well-formed records |
| TopSummary.AbsorbKeys | scripts/mergeTopSummary.js:54-64 | `handleInsert` appends a new key at the end and otherwise leaves the key order alone |
| TopSummary.AbsorbFields | scripts/mergeTopSummary.js:54-64 | the item's record gets the item's fields and keeps its other earlier fields; every other record is unchanged |
| TopSummary.RecordFields | scripts/mergeTopSummary.js:62-63 | in `{ ...existing, ...item }` a field of the item wins and any other keeps its value |
| TopSummary.Merged | scripts/mergeTopSummary.js:66-67 | the map after all inserts is well formed |
| TopSummary.HandleInsert | scripts/mergeTopSummary.js:54-64 | the method's new map is the specification's `Absorb` |
| TopSummary.MergedStep | scripts/mergeTopSummary.js:66-67 | the map after i+1 items is the map after i items with item i absorbed |
| TopSummary.LocaleCompare | scripts/mergeTopSummary.js:73 | the comparison is 0 iff the names are equal |
| TopSummary.ComparatorOrder | scripts/mergeTopSummary.js:69-76 | the comparator is non-positive iff the larger count, or on a tie the smaller name, comes first; it is 0 iff the ranks are equal |
| TopSummary.MergeArtistCollections | scripts/mergeTopSummary.js:52-77 | the result is the ranked merged records: a permutation of the map's values, one per distinct valid id, sorted by rank |
| TopSummary.MergedOutput | scripts/mergeTopSummary.js:69 | the ranked output is a permutation of the merged records, one per distinct key, and sorted |
| TopSummary.ValidKeys | scripts/mergeTopSummary.js:55-61 | at most one key per item |
| TopSummary.FirstSeen | scripts/mergeTopSummary.js:63 | the first occurrences are distinct and have the same members |
| TopSummary.MergedKeys | scripts/mergeTopSummary.js:53-67 | the map's keys are the keys of the valid items in first-appearance order |
| TopSummary.MergedCount | scripts/mergeTopSummary.js:66-69 | the output has as many records as there are distinct valid ids |
| TopSummary.SkipsInvalid | scripts/mergeTopSummary.js:55-61 | items that are not objects, or whose id is `undefined` or `null`, change nothing |
| TopSummary.MergedFields | scripts/mergeTopSummary.js:62-67 | each field of a merged record is that of the last item with its id that has the field; an id not filed reads nothing |
| TopSummary.SecondaryWins | scripts/mergeTopSummary.js:66-67 | a field comes from the secondary list when some secondary item with the id has it, and from the primary list otherwise |
| TopSummary.MergedHasId | scripts/mergeTopSummary.js:58-63 | every merged record has an `id` |
| TopSummary.IdFiled | scripts/mergeTopSummary.js:58-63 | a filed key always has an item with an `id` |
| TopSummary.RankedOrder | scripts/mergeTopSummary.js:69-76 | each record comes before every record with a smaller count, and among equal counts before larger names |
| TopSummary.UncountedAfterCounted | scripts/mergeTopSummary.js:70-75 | a record without `count` ranks as 0 and so comes after every record with a positive count |
| TopSummary.RankedStable | scripts/mergeTopSummary.js:69-76 | records of equal rank keep their map order |

## Left out

- `scripts/cli.js` is not part of this model. It is command-line parsing and dispatch.
- File I/O is not modelled: reading and parsing files (`readJsonFile` in both scripts),
  writing the merged, report and output files (`saveMergedData`'s write, `writeJsonFile`),
  and creating directories. `readJsonFile` and `saveMergedData` are modelled on parsed
  documents (`Merge.ReadJson`, `Merge.SaveMergedData`). JSON text is not.
- `createBackup`, `mergeMusic`, `compareMusic`, `interactiveMerge` and `run` are left out.
  They only sequence the modelled functions with file access, the console and user
  prompts.
- Console logging, the decoration glyphs of the reports and `lines.join('\n')` are left out.
  Report lines are modelled by what they say.
- The report timestamp is a parameter instead of the clock.
- The `reportPath` replacement at scripts/lib/merge.js:364 is left out. It is path
  handling.
- `localeCompare` and the default `sort()` order are modelled as code-point lexicographic
  order (`Orders.StrLe`). Locale collation is left out. The default `sort()`
  (scripts/lib/merge.js:243, scripts/lib/compare.js:118-120) compares UTF-16 code units:
  it orders a character above U+FFFF (an emoji) before one in U+E000–U+FFFF (such as the
  full-width "（"), where code-point order puts it after. Names mixing the two are ordered
  differently here.
- Numbers are integers: JSON floating point is left out.
- TopSummary.CountRank: `Number(count) || 0` is modelled for numbers, booleans and plain
  digit strings. Strings with whitespace, signs, decimals or hex, and arrays, count as 0
  here, while JavaScript converts some of them to a number.
- TopSummary.IdKey: object and array ids are told apart by their item's position. Each
  parsed value is distinct under `Map`'s identity comparison, so this is exact for parsed
  input. Id values that are numbers and strings are compared by value.
- TopSummary.MergeArtistCollections: requires every object item to be a well-formed
  ordered map (`Parsed`). This holds of anything `JSON.parse` produces.
- GroupByAlbum (`MergeReport.GroupByAlbum`) models the intended grouping and never fails.
  At scripts/lib/merge.js:237-240 a new song whose album is an inherited `Object.prototype`
  member (`Js.InheritedNames`: "constructor", "toString", "__proto__", ...) makes `push`
  throw a TypeError. `MergeReport.GroupMapAsWritten` models that failure, and agrees with
  the grouping whenever it does not fail.
- GeneratePreview (`MergeReport.GeneratePreview`) is built on the intended grouping and
  never fails. The source throws for the albums above, and since `mergeMusic` builds the
  preview before merging when `showPreview` is set (scripts/lib/merge.js:321-323), such a
  catalog aborts the whole merge.
  That abort is not modelled.
- PushSongDetails (`MergeReport.PushSongDetails`) uses the intended grouping as well, where
  scripts/lib/merge.js:434-440 throws for the same album names.
- GenerateMergeReport (`MergeReport.GenerateMergeReport`) never fails, through
  PushSongDetails, where the source throws for those album names. Its position line is the
  one merge.js:423 prints.
- AnalyzeAlbums (`Compare.AnalyzeAlbums`) builds the intended summary and never fails. At
  scripts/lib/compare.js:71-84 a record whose album is an inherited `Object.prototype`
  member leaves the count unset and makes `push` throw. `Compare.SummarizeAsWritten` models
  that failure, and agrees with the summary whenever it does not fail.
- Tracks.Song: `name`, `artist`, `album` and `ext` are missing, `null` or a string, and a
  record is an object. A truthy `name` or `album` that is not a string (a number, an
  object) makes the sort comparator's `(a.album || '').localeCompare` throw
  (scripts/lib/merge.js:191-193). A `null` record makes `generateSongKey`
  (scripts/lib/merge.js:86-96) and `analyzeAlbums` (scripts/lib/compare.js:67) read a
  property of `null` and throw. Neither input is represented.
- Merge.ReadJson and Merge.SaveMergedData: an object document is represented by its `data`
  member only. `saveMergedData` writes `{ data: mergedData }` (scripts/lib/merge.js:264-266),
  so every other top-level member of an object-format main file is lost on save. The model
  cannot state that loss. A truthy `data` that is not an array, and a `null` document
  (where `parsed.data` throws, scripts/lib/merge.js:66), are not represented either.
- The `keepMainOrder` option (scripts/lib/merge.js:45) is never read by the scripts, and
  it is not modelled.
- The keys `name@@album` (compare.js) and `generateSongKey` keys are ambiguous when a field
  holds "@@". This is stated as a lemma (`Compare.GenerateKeyAmbiguous`,
  `Merge.SeparatorInFieldCollides`) rather than corrected, since it is a choice of key
  format.

## Findings

| source | as written | input that shows it | evidently intended | confidence | as-written member | corrected member |
|---|---|---|---|---|---|---|
| scripts/lib/merge.js:237-240 | `if (!songsByAlbum[album]) songsByAlbum[album] = []` finds an inherited `Object.prototype` member for names such as "constructor", so the following `push` throws a TypeError | one new song with album "constructor" | every album gets its own group | not executed | MergeReport.ConstructorAlbumThrows | MergeReport.GroupMapSpec |
| scripts/lib/compare.js:71-84 | `if (!albums[album])` finds an inherited member for names such as "toString", so the count is never initialised and `songsByAlbum[album].push` throws | one record with album "toString" | the album is counted and listed like any other | not executed | Compare.ToStringAlbumThrows | Compare.SummarySpec |
| scripts/lib/merge.js:423 | the report prints "start" for every position other than "end", while `mergeData` (line 198) puts the new songs first only for "start" | `appendPosition` "" (or any value other than "start" and "end") | the label says where the songs actually go | not executed | MergeReport.PositionLabelAsWrittenMislabels | MergeReport.PositionLabelAgrees |
