# Loan-history dashboard of the library book-lending tracker

A Dafny model of the dashboard page of the book-lending tracker
(`src/app/dashboard/page.tsx`). The page fetches every row of the
`peminjaman_buku` table once, on mount. It normalises each row into a `Buku` loan
record, and its `jenisBuku` categories may arrive as a native array, as serialised
text or as something else. From the resulting `bukuList` it derives four
statistics: total records, distinct borrowers, returned and on loan. It also shows
a loan-history table, where each row has a return-date cell and a status badge.
A failed fetch shows an error banner.

Modules:

- `Wrappers` (`wrappers.dfy`): `Option`, standing for JavaScript's `null`.
- `Collections` (`collections.dfy`): `filter`, `map` and `new Set(...)` over
  sequences, with the counting lemmas the statistics rest on.
- `Buku` (`buku.dfy`): the `Buku` record, the raw fetched `Row`, and row normalisation.
- `Statistik` (`statistik.dfy`): the truthiness test on `tanggalKembali`, the four
  counts, the return-date cell, the status label and the table rows.
- `DashboardPage` (`dashboard.dfy`): the component state `bukuList` and `error`, as a
  class whose methods are the two branches of `fetchData`.

Modelling decisions:

- `tanggalKembali` is declared `string`, but the store delivers `null` for an open
  loan. It is modelled as `Option<string>`. A record counts as returned only when the
  value is a non-empty string, which is JavaScript truthiness. So `null` and `""` both
  count as on loan.
- `JSON.parse` is an uninterpreted parameter `parse: string -> Option<seq<string>>`.
  `None` means it throws. A throw inside the `map` rejects `fetchData` before
  `setBukuList` runs, so the state stays as it was. `OnFetchOk` reports this through
  `completed == false`.
- `data || []` is modelled as an `Option` of rows, where `None` means no rows.
- The supabase query's answer is an input value: `FetchFailed(message)` or `Fetched(data)`.
- A successful fetch never clears an earlier error. The page has no loading state. An
  empty-string `tanggalKembali` counts as on loan, not as returned.

## Model

| member | source | states |
|---|---|---|
| `Buku.NormaliseRow` | src/app/dashboard/page.tsx:34-41 | every column of the row is copied unchanged. An array `jenisBuku` is kept as is, and text is replaced by what `JSON.parse` yields. Anything else becomes `[]`. The result is absent exactly when the categories are text that `JSON.parse` rejects |
| `Buku.NormaliseRows` | src/app/dashboard/page.tsx:34-41 | the map succeeds exactly when every row normalises. On success it has one record per row, in the same order, and record i is the normal form of row i |
| `Buku.Normalise` | src/app/dashboard/page.tsx:34 | `null` data yields the empty list; otherwise the rows are normalised |
| `Buku.NormaliseRowOfRecord` | src/app/dashboard/page.tsx:35-37 | a record stored with an array of categories comes back unchanged, for every parser |
| `Buku.NormaliseRowsOfRecords` | src/app/dashboard/page.tsx:34-41 | normalisation is the identity on lists already in normal form: length, order and every field are kept |
| `Buku.NormaliseRowsRejects` | src/app/dashboard/page.tsx:38-39 | one row whose category text `JSON.parse` rejects makes the whole normalisation fail |
| `Buku.NormaliseRowsWithoutText` | src/app/dashboard/page.tsx:36-40 | rows without category text always normalise, and the result does not depend on `JSON.parse` |
| `Collections.FilterAppend` | src/app/dashboard/page.tsx:51-52 | `filter` distributes over concatenation, so it keeps the input order |
| `Collections.Filter` | src/app/dashboard/page.tsx:51-52 | `filter` keeps an element exactly when it is in the input and satisfies the predicate, and never yields more elements than the input |
| `Collections.Map` | src/app/dashboard/page.tsx:50 | `map` yields one output per input, in order, and output i is the function applied to input i |
| `Collections.FilterEmpty` | src/app/dashboard/page.tsx:51-52 | a `filter` is empty exactly when no position of the input satisfies the predicate |
| `Collections.FilterSplit` | src/app/dashboard/page.tsx:51-52 | two filters with complementary predicates together count every element exactly once |
| `Collections.ToSet` | src/app/dashboard/page.tsx:50 | `new Set(xs)` holds exactly the elements of `xs`. It is no larger than `xs`, and is empty only for the empty array |
| `Collections.ToSetAppendCardinality` | src/app/dashboard/page.tsx:50 | adding an element grows the set by one exactly when the element is new |
| `Statistik.Statistics` | src/app/dashboard/page.tsx:49-52 | `totalBuku` is the length of the list, and `totalDikembalikan + totalDipinjam == totalBuku`. `totalDikembalikan` is the number of positions that hold a returned record. `totalPeminjam` is the number of distinct `peminjam` strings over all positions, at most `totalBuku`, and 0 exactly for the empty list |
| `Statistik.Returned` | src/app/dashboard/page.tsx:51 | the truthiness test on `tanggalKembali`: `null` and `""` are not returned, and any non-empty date is returned |
| `Statistik.OnLoan` | src/app/dashboard/page.tsx:52 | `!b.tanggalKembali`: a record with no return date or an empty one is on loan, and one with a non-empty date is not |
| `Statistik.TotalBuku` | src/app/dashboard/page.tsx:49 | `totalBuku` equals `totalDikembalikan + totalDipinjam` |
| `Statistik.Borrowers` | src/app/dashboard/page.tsx:50 | `bukuList.map((b) => b.peminjam)`: one borrower per record, in order, and entry i is the borrower of record i |
| `Statistik.TotalPeminjam` | src/app/dashboard/page.tsx:50 | `totalPeminjam` is the number of distinct `peminjam` strings over all positions. It is at most the number of records, and 0 exactly for the empty list |
| `Statistik.TotalDikembalikan` | src/app/dashboard/page.tsx:51 | `totalDikembalikan` is the number of positions holding a returned record. It is at most the number of records, and 0 exactly when every record is on loan |
| `Statistik.TotalDipinjam` | src/app/dashboard/page.tsx:52 | `totalDipinjam` is the number of records not counted in `totalDikembalikan`, and is 0 exactly when every record is returned |
| `Statistik.ReturnedCountIsIndexCount` | src/app/dashboard/page.tsx:51 | the `filter` on a truthy return date keeps as many records as there are indices whose record has a truthy return date |
| `Statistik.ReturnedIndicesAppend` | src/app/dashboard/page.tsx:51 | appending a record adds its position to the returned positions exactly when its return date is truthy, and that position is new |
| `Statistik.AppendRecordBorrowers` | src/app/dashboard/page.tsx:49-50 | appending a record adds one to `totalBuku`. It leaves `totalPeminjam` unchanged when the borrower string already occurs, and adds one to it otherwise |
| `Statistik.AppendRecordStatus` | src/app/dashboard/page.tsx:51-52 | appending a record adds one to exactly one of `totalDikembalikan` and `totalDipinjam`, chosen by its return date |
| `Statistik.ReturnDateCell` | src/app/dashboard/page.tsx:146 | a record on loan shows `"-"`; a returned record shows its stored, non-empty date |
| `Statistik.StatusLabel` | src/app/dashboard/page.tsx:156 | the label is "Dikembalikan" exactly when the record is returned, and "Dipinjam" exactly when it is on loan |
| `Statistik.View` | src/app/dashboard/page.tsx:123-158 | one table row shows every stored column of its record. Its date cell is `ReturnDateCell` of the record: `"-"` when on loan, the stored date when returned. Its badge is `StatusLabel` of the record: "Dikembalikan" exactly when returned, "Dipinjam" exactly when on loan |
| `Statistik.Table` | src/app/dashboard/page.tsx:122-160 | the table has one row per record, in list order, and row i is the `View` of record i |
| `Statistik.TableAgreesWithStatistics` | src/app/dashboard/page.tsx:122-157 | the number of table rows labelled "Dikembalikan" equals `totalDikembalikan`, and the number labelled "Dipinjam" equals `totalDipinjam`. A row labelled returned shows its record's date |
| `Statistik.EmptyReturnDateIsOnLoan` | src/app/dashboard/page.tsx:146-156 | an empty-string return date counts as on loan, is labelled "Dipinjam" and shows `"-"` |
| `DashboardPage.ErrorBanner` | src/app/dashboard/page.tsx:60-62 | the banner is shown, with the error text, exactly when `error` is a non-empty string |
| `DashboardPage.PrefixedErrorIsShown` | src/app/dashboard/page.tsx:31 | an error that starts with the failure prefix is never empty, so the banner shows it word for word |
| `DashboardPage.Dashboard.constructor` | src/app/dashboard/page.tsx:22-23 | the page starts with an empty list and no error |
| `DashboardPage.Dashboard.OnFetchErr` | src/app/dashboard/page.tsx:30-31 | on failure `error` becomes `"Gagal mengambil data: "` followed by the message, and `bukuList` is unchanged |
| `DashboardPage.Dashboard.OnFetchOk` | src/app/dashboard/page.tsx:32-43 | on success `bukuList` becomes the normalised rows and `error` is untouched. If `JSON.parse` throws, nothing changes |
| `DashboardPage.Dashboard.FetchData` | src/app/dashboard/page.tsx:26-44 | dispatches on the query's answer to one of the two branches above. Every error the page holds starts with the prefix |
| `DashboardPage.Dashboard.Stats` | src/app/dashboard/page.tsx:49-52 | the panel shows exactly the statistics of the current `bukuList`, so everything `Statistics` promises holds of it |
| `DashboardPage.Mount` | src/app/dashboard/page.tsx:22-46 | after the one fetch made on mount there are three outcomes. A successful answer completes exactly when every row normalises; then the page holds exactly the normalised rows and no error, and its statistics are theirs. Failure: an empty list and a visible banner with the prefixed message. A `JSON.parse` throw: an empty list and no error. Any error held is shown in the banner |

## Left out

- The supabase query itself (`supabase.from("peminjaman_buku").select("*")`) is network I/O. Its answer is a parameter.
- `useEffect` scheduling and the asynchronous timing of `fetchData` are React scheduling. `Mount` models only the state before the fetch and after its answer.
- The behaviour of `JSON.parse` is not modelled. It is an uninterpreted parameter. A result that is not an array of strings is assumed not to occur.
- Columns that `...row` copies beyond those of the `Buku` interface are not modelled, because the page never reads them.
- The markup and styling are not modelled. This includes the green and yellow colour of the status badge, which uses the same truthiness test as the label.
- `src/app/dashboard/layout.tsx` is navigation only, and its logout is `router.push("/")`. `src/app/dashboard/about/page.tsx` and `src/app/page.tsx` are static content and animation. None of these is part of this model.
- Adding a loan, toggling its return and deleting it do not exist in this page, so they are not modelled.
- JavaScript numbers are modelled as unbounded integers. The page only displays `id`.
