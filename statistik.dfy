/**
 * What the dashboard derives from its list of records on every render: the
 * four statistics cards and, per row of the loan-history table, the
 * return-date cell and the status badge (src/app/dashboard/page.tsx).
 */
module Statistik {
  import opened Wrappers
  import opened Collections
  import opened Buku

  /**
   * JavaScript truthiness of `tanggalKembali`: a record counts as returned
   * only when a non-empty date is stored; `null` and `""` both mean on loan.
   */
  predicate Returned(b: Buku)
    ensures b.tanggalKembali == None ==> !Returned(b)
    ensures b.tanggalKembali == Some("") ==> !Returned(b)
    ensures forall d :: b.tanggalKembali == Some(d) && |d| > 0 ==> Returned(b)
  {
    b.tanggalKembali.Some? && b.tanggalKembali.value != ""
  }

  /** `!b.tanggalKembali`: no return date, or an empty one. */
  predicate OnLoan(b: Buku)
    ensures b.tanggalKembali == None ==> OnLoan(b)
    ensures b.tanggalKembali == Some("") ==> OnLoan(b)
    ensures forall d :: b.tanggalKembali == Some(d) && |d| > 0 ==> !OnLoan(b)
  {
    !Returned(b)
  }

  /** The positions of `list` that hold a returned record. */
  function ReturnedIndices(list: seq<Buku>): set<int> {
    set i | 0 <= i < |list| && Returned(list[i])
  }

  /** Appending a record adds its position to the returned positions exactly when it is returned. */
  lemma ReturnedIndicesAppend(init: seq<Buku>, b: Buku)
    ensures |init| !in ReturnedIndices(init)
    ensures ReturnedIndices(init + [b]) == ReturnedIndices(init) + (if Returned(b) then {|init|} else {})
  {
  }

  /** Filtering on the return date counts positions: the number of indices holding a returned record. */
  lemma {:induction false} ReturnedCountIsIndexCount(list: seq<Buku>)
    ensures |Filter(list, Returned)| == |ReturnedIndices(list)|
  {
    if list != [] {
      var n := |list| - 1;
      var init := list[..n];
      ReturnedCountIsIndexCount(init);
      assert list == init + [list[n]];
      FilterAppend(init, [list[n]], Returned);
      assert Filter([list[n]], Returned) == if Returned(list[n]) then [list[n]] else [];
      ReturnedIndicesAppend(init, list[n]);
    }
  }

  /**
   * `totalDikembalikan`: the number of positions holding a returned record;
   * zero exactly when every record is on loan.
   */
  function TotalDikembalikan(list: seq<Buku>): (r: nat)
    ensures r == |ReturnedIndices(list)|
    ensures r <= |list|
    ensures r == 0 <==> forall i :: 0 <= i < |list| ==> OnLoan(list[i])
  {
    ReturnedCountIsIndexCount(list);
    |Filter(list, Returned)|
  }

  /**
   * `totalDipinjam`: the records not counted as returned; zero exactly when
   * every record is returned.
   */
  function TotalDipinjam(list: seq<Buku>): (r: nat)
    ensures r + TotalDikembalikan(list) == |list|
    ensures r == 0 <==> forall i :: 0 <= i < |list| ==> Returned(list[i])
  {
    FilterSplit(list, Returned, OnLoan);
    FilterEmpty(list, OnLoan);
    |Filter(list, OnLoan)|
  }

  /** `totalBuku`: every record is either returned or on loan, never both. */
  function TotalBuku(list: seq<Buku>): (r: nat)
    ensures r == TotalDikembalikan(list) + TotalDipinjam(list)
  {
    |list|
  }

  /** The borrower of every record, in order (`bukuList.map((b) => b.peminjam)`). */
  function Borrowers(list: seq<Buku>): (r: seq<string>)
    ensures |r| == |list|
    ensures forall i :: 0 <= i < |list| ==> r[i] == list[i].peminjam
  {
    Map(list, (b: Buku) => b.peminjam)
  }

  /**
   * `totalPeminjam`: the number of distinct borrower strings, compared
   * exactly; never more than the records, and zero only without records.
   */
  function TotalPeminjam(list: seq<Buku>): (r: nat)
    ensures r == |set i | 0 <= i < |list| :: list[i].peminjam|
    ensures r <= |list|
    ensures r == 0 <==> list == []
  {
    assert ToSet(Borrowers(list)) == set i | 0 <= i < |list| :: list[i].peminjam;
    |ToSet(Borrowers(list))|
  }

  /** The four statistics cards. */
  datatype Statistik = Statistik(totalBuku: nat, totalPeminjam: nat, totalDikembalikan: nat, totalDipinjam: nat)

  /**
   * The statistics panel of a list: returned and on-loan records split the
   * list, the returned count is the number of positions holding a returned
   * record, and the borrower count is the number of distinct borrower
   * strings, never more than the records and zero only without records.
   */
  function Statistics(list: seq<Buku>): (r: Statistik)
    ensures r.totalBuku == |list|
    ensures r.totalDikembalikan + r.totalDipinjam == r.totalBuku
    ensures r.totalDikembalikan == |ReturnedIndices(list)|
    ensures r.totalPeminjam == |set i | 0 <= i < |list| :: list[i].peminjam|
    ensures r.totalPeminjam <= r.totalBuku
    ensures r.totalPeminjam == 0 <==> list == []
  {
    Statistik(TotalBuku(list), TotalPeminjam(list), TotalDikembalikan(list), TotalDipinjam(list))
  }

  /**
   * Borrowers are told apart by exact string equality: one more record for a
   * borrower already listed adds a record but not a borrower; one for a new
   * borrower adds both.
   */
  lemma AppendRecordBorrowers(list: seq<Buku>, b: Buku)
    ensures TotalBuku(list + [b]) == TotalBuku(list) + 1
    ensures (exists i :: 0 <= i < |list| && list[i].peminjam == b.peminjam) ==>
      TotalPeminjam(list + [b]) == TotalPeminjam(list)
    ensures (forall i :: 0 <= i < |list| ==> list[i].peminjam != b.peminjam) ==>
      TotalPeminjam(list + [b]) == TotalPeminjam(list) + 1
  {
    assert Borrowers(list + [b]) == Borrowers(list) + [b.peminjam];
    ToSetAppendCardinality(Borrowers(list), b.peminjam);
    if b.peminjam in Borrowers(list) {
      var k :| 0 <= k < |list| && Borrowers(list)[k] == b.peminjam;
      assert list[k].peminjam == b.peminjam;
    }
  }

  /** One more record moves exactly one of the two status counts, the one its return date selects. */
  lemma AppendRecordStatus(list: seq<Buku>, b: Buku)
    ensures TotalDikembalikan(list + [b]) == TotalDikembalikan(list) + (if Returned(b) then 1 else 0)
    ensures TotalDipinjam(list + [b]) == TotalDipinjam(list) + (if Returned(b) then 0 else 1)
  {
    FilterAppend(list, [b], Returned);
    FilterAppend(list, [b], OnLoan);
  }

  /** The return-date cell: the stored date when the record is returned, `"-"` otherwise (`b.tanggalKembali || "-"`). */
  function ReturnDateCell(b: Buku): (r: string)
    ensures OnLoan(b) ==> r == "-"
    ensures Returned(b) ==> Some(r) == b.tanggalKembali && r != ""
  {
    if Returned(b) then b.tanggalKembali.value else "-"
  }

  /** The status badge text. */
  function StatusLabel(b: Buku): (r: string)
    ensures r == "Dikembalikan" <==> Returned(b)
    ensures r == "Dipinjam" <==> OnLoan(b)
  {
    if Returned(b) then "Dikembalikan" else "Dipinjam"
  }

  /** The cells of one row of the loan-history table. */
  datatype RowView = RowView(
    id: int,
    judul: string,
    jenis: seq<string>,
    pengarang: string,
    peminjam: string,
    petugas: string,
    tanggalPinjam: string,
    tanggalKembali: string,
    status: string)

  /**
   * One table row: every column of the record as stored, the return-date
   * cell, and the status badge, which reads "Dikembalikan" exactly for a
   * returned record.
   */
  function View(b: Buku): (r: RowView)
    ensures && r.id == b.id && r.judul == b.judul && r.jenis == b.jenisBuku
            && r.pengarang == b.pengarang && r.peminjam == b.peminjam
            && r.petugas == b.petugas && r.tanggalPinjam == b.tanggalPinjam
    ensures r.tanggalKembali == ReturnDateCell(b) && r.status == StatusLabel(b)
    ensures r.status == "Dikembalikan" <==> Returned(b)
    ensures r.status == "Dipinjam" <==> OnLoan(b)
  {
    RowView(b.id, b.judul, b.jenisBuku, b.pengarang, b.peminjam, b.petugas, b.tanggalPinjam, ReturnDateCell(b), StatusLabel(b))
  }

  /** The loan-history table: one row per record, in list order. */
  function Table(list: seq<Buku>): (r: seq<RowView>)
    ensures |r| == |list|
    ensures forall i :: 0 <= i < |list| ==> r[i] == View(list[i])
  {
    Map(list, View)
  }

  predicate ShowsReturned(v: RowView) {
    v.status == "Dikembalikan"
  }

  predicate ShowsOnLoan(v: RowView) {
    v.status == "Dipinjam"
  }

  /**
   * The table and the statistics panel agree: as many rows are badged
   * "Dikembalikan" as `totalDikembalikan` says, as many "Dipinjam" as
   * `totalDipinjam` says, and every badged-returned row shows its date.
   */
  lemma {:induction false} TableAgreesWithStatistics(list: seq<Buku>)
    ensures |Filter(Table(list), ShowsReturned)| == TotalDikembalikan(list)
    ensures |Filter(Table(list), ShowsOnLoan)| == TotalDipinjam(list)
    ensures forall i :: 0 <= i < |list| && ShowsReturned(Table(list)[i]) ==>
      Some(Table(list)[i].tanggalKembali) == list[i].tanggalKembali
  {
    if list != [] {
      TableAgreesWithStatistics(list[1..]);
      assert Table(list) == [View(list[0])] + Table(list[1..]);
    }
  }

  /** An empty-string return date is falsy: such a record is on loan, badged "Dipinjam", and shows `"-"`. */
  lemma EmptyReturnDateIsOnLoan(b: Buku)
    requires b.tanggalKembali == Some("")
    ensures OnLoan(b) && !Returned(b)
    ensures StatusLabel(b) == "Dipinjam" && ReturnDateCell(b) == "-"
  {
  }
}
