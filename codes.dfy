/**
 * The codes REST controller: a conditional-GET gate against the time of the
 * last ETL load, then a list lookup (one page of codes and the total number
 * of matches) or a single-code lookup through the code DAO.
 */
module Codes {
  import opened Optional
  import Paging

  /** The reference vocabularies; the controller only passes the type through. */
  datatype CodeType = CountryCode | CountyCode | StateCode | SiteType | CharacteristicName

  /** One reference entry; every attribute may be null. */
  datatype Code = Code(value: Option<string>, desc: Option<string>, providers: Option<string>)

  /** One page of codes, in DAO order, with the total number of matches. */
  datatype CodeList = CodeList(codes: seq<Code>, recordCount: int)

  /** The code DAO, an external collaborator given as three functions. */
  datatype CodeDao = CodeDao(
    recordCount: (CodeType, Paging.Params) -> int,
    codes: (CodeType, Paging.Params) -> seq<Code>,
    code: (CodeType, string) -> Option<Code>)

  /** The DAO reporting when the last ETL load finished, as an integer time stamp. */
  datatype LastUpdateDao = LastUpdateDao(lastEtl: int)

  /**
   * The If-Modified-Since test of a conditional GET (section 3.3 of RFC 7232):
   * the client's copy is current when it names a time at or after the last
   * modification.  Without the header the condition never holds.
   */
  predicate CheckNotModified(ifModifiedSince: Option<int>, lastModified: int) {
    ifModifiedSince.Some? && lastModified <= ifModifiedSince.value
  }

  /** The outcomes of a single-code lookup; the web layer answers 304, 404 or 200. */
  datatype CodeResult = NotModified | NotFound | Found(code: Code)

  /** The outcomes of a list lookup. */
  datatype ListResult = ListNotModified | Listed(list: CodeList)

  const SC_OK := 200
  const SC_NOT_MODIFIED := 304
  const SC_NOT_FOUND := 404

  /** The servlet response; only its status is modelled. */
  class HttpResponse {
    var status: int

    constructor ()
      ensures status == SC_OK
    {
      status := SC_OK;
    }

    method SetStatus(sc: int)
      modifies this
      ensures status == sc
    {
      status := sc;
    }
  }

  class CodesRestController {
    const lastUpdateDao: LastUpdateDao
    const codeDao: CodeDao

    constructor (lastUpdateDao: LastUpdateDao, codeDao: CodeDao)
      ensures this.lastUpdateDao == lastUpdateDao && this.codeDao == codeDao
    {
      this.lastUpdateDao := lastUpdateDao;
      this.codeDao := codeDao;
    }

    /**
     * A page of codes of the given type.  Unless the client's copy is
     * current, both DAO calls receive the same coerced parameter map: the
     * page comes from one, the record count from the other.  Malformed
     * paging strings never stop the list from being returned.
     */
    method GetList(codeType: CodeType, text: Option<string>, pageNumber: Option<string>,
                   pageSize: Option<string>, ifModifiedSince: Option<int>)
      returns (r: ListResult)
      ensures r == ListNotModified <==> CheckNotModified(ifModifiedSince, lastUpdateDao.lastEtl)
      ensures r.Listed? ==>
        var parms := Paging.ParamMap(text, pageNumber, pageSize);
        r.list.codes == codeDao.codes(codeType, parms)
        && r.list.recordCount == codeDao.recordCount(codeType, parms)
    {
      if CheckNotModified(ifModifiedSince, lastUpdateDao.lastEtl) {
        return ListNotModified;
      }
      var parms := Paging.BuildParams(text, pageNumber, pageSize);
      var count := codeDao.recordCount(codeType, parms);
      var codes := codeDao.codes(codeType, parms);
      r := Listed(CodeList(codes, count));
    }

    /**
     * One code of the given type by its value.  When the client's copy is
     * current, the answer is NotModified and the response status is 304.
     * Otherwise a code the DAO knows is returned unchanged, with the status
     * left alone, and an unknown value gives NotFound and status 404.
     */
    method GetCode(codeType: CodeType, value: string, ifModifiedSince: Option<int>,
                   response: HttpResponse)
      returns (r: CodeResult)
      modifies response
      ensures CheckNotModified(ifModifiedSince, lastUpdateDao.lastEtl) ==>
        r == NotModified && response.status == SC_NOT_MODIFIED
      ensures !CheckNotModified(ifModifiedSince, lastUpdateDao.lastEtl) ==>
        match codeDao.code(codeType, value)
        case Some(c) => r == Found(c) && response.status == old(response.status)
        case None => r == NotFound && response.status == SC_NOT_FOUND
    {
      if CheckNotModified(ifModifiedSince, lastUpdateDao.lastEtl) {
        response.SetStatus(SC_NOT_MODIFIED);
        return NotModified;
      }
      var found := codeDao.code(codeType, value);
      match found
      case Some(c) =>
        r := Found(c);
      case None =>
        response.SetStatus(SC_NOT_FOUND);
        r := NotFound;
    }
  }

  /**
   * What the list test's DAO double puts into the page it returns: the
   * `text` entry as the value, and `offset` and `fetchSize` as decimal text
   * ("null" when absent) as the description and the providers.
   */
  function EchoCode(parms: Paging.Params): Code {
    Code(EchoText(parms, Paging.TEXT_SEARCH),
         Some(EchoInt(parms, Paging.OFFSET)),
         Some(EchoInt(parms, Paging.FETCH_SIZE)))
  }

  function EchoText(parms: Paging.Params, key: string): Option<string> {
    if key in parms && parms[key].TextValue? then Some(parms[key].text) else None
  }

  function EchoInt(parms: Paging.Params, key: string): string {
    if key in parms && parms[key].IntValue? then
      var n := parms[key].n;
      if n < 0 then "-" + Paging.Show(-n) else Paging.Show(n)
    else "null"
  }

  /** What the DAO double echoes when the paging strings are unusable. */
  lemma EchoUnusableCases()
    ensures EchoCode(Paging.ParamMap(None, None, None)) == Code(None, Some("null"), Some("null"))
    ensures EchoCode(Paging.ParamMap(Some(""), Some(""), Some("")))
         == Code(None, Some("null"), Some("null"))
    ensures EchoCode(Paging.ParamMap(Some("xx x"), Some("y4"), Some("z2")))
         == Code(Some("xx x"), Some("null"), Some("null"))
    ensures EchoCode(Paging.ParamMap(Some("xx x"), Some("-4"), Some("-2")))
         == Code(Some("xx x"), Some("null"), Some("null"))
  {
    Paging.NullAndEmptyCases();
    Paging.MalformedNumberCases();
  }

  /** What the DAO double echoes when the page size, or both numbers, are usable. */
  lemma EchoNumberCases()
    ensures EchoCode(Paging.ParamMap(Some("US"), Some("1"), Some("5")))
         == Code(Some("US"), Some("0"), Some("5"))
    ensures EchoCode(Paging.ParamMap(Some("xx x"), Some("X"), Some("2")))
         == Code(Some("xx x"), Some("null"), Some("2"))
    ensures EchoCode(Paging.ParamMap(Some("xx x"), Some("4"), Some("15")))
         == Code(Some("xx x"), Some("45"), Some("15"))
  {
    Paging.FirstPageCase();
    Paging.SizeWithoutPageCase();
    Paging.LaterPageCase();
    assert Paging.Show(45) == "45";
    assert Paging.Show(15) == "15";
  }

  /** The list scenario: a not-modified request, then requests with literal paging strings. */
  method GetListScenario()
  {
    var lastEtl := 20140101010101;
    var dao := CodeDao((t, p) => 12, (t, p) => [EchoCode(p)], (t, v) => None);
    var controller := new CodesRestController(LastUpdateDao(lastEtl), dao);
    EchoUnusableCases();
    EchoNumberCases();

    var r := controller.GetList(CountryCode, Some("US"), Some("0"), Some("5"), Some(lastEtl + 1));
    assert r == ListNotModified;

    r := controller.GetList(CountryCode, Some("US"), Some("1"), Some("5"), None);
    assert r.list.recordCount == 12;
    assert r.list.codes == [Code(Some("US"), Some("0"), Some("5"))];

    r := controller.GetList(CountryCode, None, None, None, None);
    assert r.list.codes == [Code(None, Some("null"), Some("null"))];

    r := controller.GetList(CountryCode, Some(""), Some(""), Some(""), None);
    assert r.list.codes == [Code(None, Some("null"), Some("null"))];

    r := controller.GetList(CountryCode, Some("xx x"), Some("y4"), Some("z2"), None);
    assert r.list.codes == [Code(Some("xx x"), Some("null"), Some("null"))];

    r := controller.GetList(CountryCode, Some("xx x"), Some("-4"), Some("-2"), None);
    assert r.list.codes == [Code(Some("xx x"), Some("null"), Some("null"))];

    r := controller.GetList(CountryCode, Some("xx x"), Some("X"), Some("2"), None);
    assert r.list.codes == [Code(Some("xx x"), Some("null"), Some("2"))];

    r := controller.GetList(CountryCode, Some("xx x"), Some("4"), Some("15"), None);
    assert r.list.codes == [Code(Some("xx x"), Some("45"), Some("15"))];
  }

  /** The single-code scenario: not modified, found, and not found with status 404. */
  method GetCodeScenario()
  {
    var lastEtl := 20140101010101;
    var us := Code(Some("US"), Some("UNITED STATES OF AMERICA"), Some("NWIS STEWARDS STORET"));
    var dao := CodeDao((t, p) => 0, (t, p) => [], (t, v) => if v == "US" then Some(us) else None);
    var controller := new CodesRestController(LastUpdateDao(lastEtl), dao);

    var response := new HttpResponse();
    var r := controller.GetCode(CountryCode, "US", Some(lastEtl + 1), response);
    assert r == NotModified && response.status == 304;

    response := new HttpResponse();
    r := controller.GetCode(CountryCode, "US", None, response);
    assert r == Found(us);

    response := new HttpResponse();
    r := controller.GetCode(CountryCode, "XX", None, response);
    assert r == NotFound && response.status == 404;
  }
}
