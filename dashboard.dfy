/**
 * The state of `DashboardPage` (src/app/dashboard/page.tsx): the list of
 * records and the error message, and how the one fetch made on mount
 * updates them.
 */
module DashboardPage {
  import opened Wrappers
  import opened Buku
  import opened Statistik

  /** The text put in front of the store's message when the fetch fails. */
  const ErrorPrefix: string := "Gagal mengambil data: "

  /** What the query on `peminjaman_buku` answers: an error with its message, or the rows (possibly `null`). */
  datatype FetchResult = FetchFailed(message: string) | Fetched(data: Option<seq<Row>>)

  /** The error banner: shown, with the message, only when `error` is truthy. */
  function ErrorBanner(error: Option<string>): (r: Option<string>)
    ensures r.Some? <==> error.Some? && error.value != ""
    ensures r.Some? ==> r == error
  {
    if error.Some? && error.value != "" then error else None
  }

  /**
   * An error produced by a failed fetch is never empty, so whenever the page
   * holds one the banner shows it, word for word.
   */
  lemma PrefixedErrorIsShown(error: Option<string>)
    requires error.Some? ==> ErrorPrefix <= error.value
    ensures ErrorBanner(error) == error
    ensures ErrorBanner(error).Some? <==> error.Some?
  {
  }

  class Dashboard {
    /** `bukuList` */
    var bukuList: seq<Buku>
    /** `error` */
    var error: Option<string>

    /** Any error the page holds is one a failed fetch produced. */
    ghost predicate Valid()
      reads this
    {
      error.Some? ==> ErrorPrefix <= error.value
    }

    /** `useState<Buku[]>([])` and `useState<string | null>(null)`. */
    constructor ()
      ensures Valid()
      ensures bukuList == [] && error == None
    {
      bukuList := [];
      error := None;
    }

    /** The failure branch: `setError(prefix + message)`; the list is left as it was. */
    method OnFetchErr(message: string)
      requires Valid()
      modifies this
      ensures Valid()
      ensures bukuList == old(bukuList)
      ensures error == Some(ErrorPrefix + message)
    {
      error := Some(ErrorPrefix + message);
    }

    /**
     * The success branch: the normalised rows replace the list, and the error
     * is left as it was. When `JSON.parse` throws on some row, `fetchData`
     * rejects before `setBukuList`, `completed` is false and nothing changes.
     */
    method OnFetchOk(data: Option<seq<Row>>, parse: Parser) returns (completed: bool)
      requires Valid()
      modifies this
      ensures Valid()
      ensures completed <==> Normalise(data, parse).Some?
      ensures completed ==> bukuList == Normalise(data, parse).value
      ensures !completed ==> bukuList == old(bukuList)
      ensures error == old(error)
    {
      var rows := Normalise(data, parse);
      if rows.Some? {
        bukuList := rows.value;
        completed := true;
      } else {
        completed := false;
      }
    }

    /** `fetchData` once the query has answered: dispatch on whether it reported an error. */
    method FetchData(result: FetchResult, parse: Parser) returns (completed: bool)
      requires Valid()
      modifies this
      ensures Valid()
      ensures result.FetchFailed? ==>
        completed && bukuList == old(bukuList) && error == Some(ErrorPrefix + result.message)
      ensures result.Fetched? ==>
        && (completed <==> Normalise(result.data, parse).Some?)
        && bukuList == (if completed then Normalise(result.data, parse).value else old(bukuList))
        && error == old(error)
    {
      match result
      case FetchFailed(message) =>
        OnFetchErr(message);
        completed := true;
      case Fetched(data) =>
        completed := OnFetchOk(data, parse);
    }

    /** The statistics panel of the current list. */
    function Stats(): (r: Statistik)
      reads this
      ensures r == Statistics(bukuList)
    {
      Statistics(bukuList)
    }
  }

  /**
   * The page from mount to the fetch's answer: it starts empty with no error;
   * a successful fetch leaves exactly the normalised rows with no error, so
   * the statistics are those of the rows; a failure leaves an empty list and
   * the banner; a `JSON.parse` throw leaves the initial state. Whatever the
   * answer, any error held is shown in the banner.
   */
  method Mount(result: FetchResult, parse: Parser) returns (page: Dashboard, completed: bool)
    ensures fresh(page) && page.Valid()
    ensures ErrorBanner(page.error) == page.error
    ensures result.FetchFailed? ==> completed
    ensures result.Fetched? ==> (completed <==> Normalise(result.data, parse).Some?)
    ensures result.FetchFailed? ==>
      page.bukuList == [] && ErrorBanner(page.error) == Some(ErrorPrefix + result.message)
    ensures result.Fetched? && completed ==>
      Some(page.bukuList) == Normalise(result.data, parse) && page.error == None
    ensures result.Fetched? && !completed ==> page.bukuList == [] && page.error == None
    ensures result.Fetched? && completed ==> page.Stats() == Statistics(Normalise(result.data, parse).value)
  {
    page := new Dashboard();
    completed := page.FetchData(result, parse);
    PrefixedErrorIsShown(page.error);
  }
}
