/**
 * Loan records of the dashboard page and the normalisation applied to the
 * rows fetched from the `peminjaman_buku` table
 * (src/app/dashboard/page.tsx, the `Buku` interface and `fetchData`).
 */
module Buku {
  import opened Wrappers
  import opened Collections

  /**
   * A loan record as the page holds it. `tanggalKembali` is declared a string
   * but the store delivers `null` for a loan that is still open, so it is
   * optional here; the categories are already a list of strings.
   */
  datatype Buku = Buku(
    id: int,
    judul: string,
    pengarang: string,
    peminjam: string,
    petugas: string,
    tanggalPinjam: string,
    tanggalKembali: Option<string>,
    jenisBuku: seq<string>)

  /**
   * The `jenisBuku` column of a fetched row, as the store may deliver it:
   * a native array, text holding a serialised array, or anything else
   * (`null`, a number, an object).
   */
  datatype RawJenis = JArray(items: seq<string>) | JText(text: string) | JOther

  /** A row as the store returns it: the same columns, with the categories not yet normalised. */
  datatype Row = Row(
    id: int,
    judul: string,
    pengarang: string,
    peminjam: string,
    petugas: string,
    tanggalPinjam: string,
    tanggalKembali: Option<string>,
    jenisBuku: RawJenis)

  /**
   * `JSON.parse` on category text, left uninterpreted: `None` when it throws,
   * otherwise the list it yields.
   */
  type Parser = string -> Option<seq<string>>

  /** The row a record is stored as when its categories are a native array. */
  function AsRow(b: Buku): Row {
    Row(b.id, b.judul, b.pengarang, b.peminjam, b.petugas, b.tanggalPinjam, b.tanggalKembali, JArray(b.jenisBuku))
  }

  /**
   * One fetched row turned into a record: every column is copied (`...row`)
   * and `jenisBuku` is replaced by its normal form. `None` when `JSON.parse`
   * throws on category text.
   */
  function NormaliseRow(row: Row, parse: Parser): (r: Option<Buku>)
    ensures r.None? <==> row.jenisBuku.JText? && parse(row.jenisBuku.text).None?
    ensures r.Some? ==>
      && r.value.id == row.id
      && r.value.judul == row.judul
      && r.value.pengarang == row.pengarang
      && r.value.peminjam == row.peminjam
      && r.value.petugas == row.petugas
      && r.value.tanggalPinjam == row.tanggalPinjam
      && r.value.tanggalKembali == row.tanggalKembali
    ensures r.Some? && row.jenisBuku.JArray? ==> r.value.jenisBuku == row.jenisBuku.items
    ensures r.Some? && row.jenisBuku.JText? ==> parse(row.jenisBuku.text) == Some(r.value.jenisBuku)
    ensures r.Some? && row.jenisBuku.JOther? ==> r.value.jenisBuku == []
  {
    var jenis :=
      match row.jenisBuku
      case JArray(items) => Some(items)
      case JText(text) => parse(text)
      case JOther => Some([]);
    match jenis
    case None => None
    case Some(items) =>
      Some(Buku(row.id, row.judul, row.pengarang, row.peminjam, row.petugas, row.tanggalPinjam, row.tanggalKembali, items))
  }

  /**
   * `rows.map(...)`: every row normalised, in order. The map stops at the
   * first row whose category text `JSON.parse` rejects, and then nothing is
   * produced.
   */
  function NormaliseRows(rows: seq<Row>, parse: Parser): (r: Option<seq<Buku>>)
    ensures r.Some? <==> forall i :: 0 <= i < |rows| ==> NormaliseRow(rows[i], parse).Some?
    ensures r.Some? ==> |r.value| == |rows|
    ensures r.Some? ==> forall i :: 0 <= i < |rows| ==> NormaliseRow(rows[i], parse) == Some(r.value[i])
  {
    if rows == [] then Some([])
    else
      match NormaliseRow(rows[0], parse)
      case None => None
      case Some(b) =>
        match NormaliseRows(rows[1..], parse)
        case None => None
        case Some(bs) => Some([b] + bs)
  }

  /** The fetched `data`, which may be `null`, normalised (`(data || []).map(...)`). */
  function Normalise(data: Option<seq<Row>>, parse: Parser): (r: Option<seq<Buku>>)
    ensures data.None? ==> r == Some([])
    ensures data.Some? ==> r == NormaliseRows(data.value, parse)
  {
    NormaliseRows(data.GetOr([]), parse)
  }

  /**
   * A record stored with a native category array comes back unchanged,
   * whatever `JSON.parse` would do: normalisation is the identity on the
   * normal form.
   */
  lemma NormaliseRowOfRecord(b: Buku, parse: Parser)
    ensures NormaliseRow(AsRow(b), parse) == Some(b)
  {
  }

  /**
   * A list of records stored with native category arrays is reproduced
   * exactly, in order: normalising is idempotent on the page's own state.
   */
  lemma {:induction false} NormaliseRowsOfRecords(bs: seq<Buku>, parse: Parser)
    ensures NormaliseRows(Map(bs, AsRow), parse) == Some(bs)
  {
    if bs != [] {
      NormaliseRowOfRecord(bs[0], parse);
      assert Map(bs, AsRow)[1..] == Map(bs[1..], AsRow);
      NormaliseRowsOfRecords(bs[1..], parse);
      assert bs == [bs[0]] + bs[1..];
    }
  }

  /** Category text `JSON.parse` rejects anywhere in the rows makes the whole map fail. */
  lemma NormaliseRowsRejects(rows: seq<Row>, parse: Parser, i: int)
    requires 0 <= i < |rows|
    requires rows[i].jenisBuku.JText? && parse(rows[i].jenisBuku.text).None?
    ensures NormaliseRows(rows, parse).None?
  {
  }

  /** Rows without category text never reach `JSON.parse`, so they always normalise, the same way for every parser. */
  lemma {:induction false} NormaliseRowsWithoutText(rows: seq<Row>, p1: Parser, p2: Parser)
    requires forall i :: 0 <= i < |rows| ==> !rows[i].jenisBuku.JText?
    ensures NormaliseRows(rows, p1).Some?
    ensures NormaliseRows(rows, p1) == NormaliseRows(rows, p2)
  {
    if rows != [] {
      NormaliseRowsWithoutText(rows[1..], p1, p2);
    }
  }
}
