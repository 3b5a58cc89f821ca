/**
 * The request parameters a handler sees, the reply it produces, and the
 * message templates of `ERROR_TEMPLATES`.
 */
module Replies {
  import opened Wrappers
  import opened Text

  /** A page cursor as the conversational context carries it. */
  datatype Param = PStr(s: string) | PInt(i: int)

  /** The parameter dictionary: text-valued query parameters, and the
      `page` entry the dispatcher adds from the context. */
  datatype Params = Params(fields: map<string, string>, page: Option<Param>) {

    /** `params.get(key, default)` */
    function Get(key: string, default: string): string {
      if key in fields then fields[key] else default
    }

    /** `params.get(key)` as a format argument: a missing key prints "None". */
    function Shown(key: string): string {
      if key in fields then fields[key] else "None"
    }
  }

  /** The text a handler returns, or `Fault` when it raises: an exception
      that reaches the dispatcher's catch-all. */
  datatype Reply = Text(text: string) | Fault

  /** `int(params.get("page", 0))`; `None` when `int()` raises. */
  function PageCursor(p: Params): (r: Option<int>)
    ensures p.page.None? ==> r == Some(0)
    ensures p.page.Some? && p.page.value.PInt? ==> r == Some(p.page.value.i)
  {
    match p.page
    case None => Some(0)
    case Some(PInt(i)) => Some(i)
    case Some(PStr(s)) => ParseInt(s)
  }

  /** A text page is read as `int()` reads it: the decimal text of any
      integer gives that integer, and one underscore between two digits is
      accepted ("1_0" is page 10). */
  lemma PageCursorText(p: Params, i: int, a: char, b: char)
    requires IsDigit(a) && IsDigit(b)
    ensures p.page == Some(PStr(IntToString(i))) ==> PageCursor(p) == Some(i)
    ensures p.page == Some(PStr([a, '_', b])) ==> PageCursor(p) == Some(DigitValue(a) * 10 + DigitValue(b))
  {
    ParseIntOfIntToString(i);
    ParseIntUnderscore(a, b);
  }

  /** `ERROR_TEMPLATES["not_found"]` */
  function NotFound(entity: string, name: string): string {
    "I couldn't find " + entity + " '" + name + "'."
  }

  /** `ERROR_TEMPLATES["no_data"]` */
  function NoData(dataType: string, entity: string, name: string): string {
    "No " + dataType + " available for " + entity + " '" + name + "'."
  }

  /** `ERROR_TEMPLATES["pagination"]` */
  function PaginationFooter(current: int, total: int): string {
    "\n\n(Page " + IntToString(current) + "/" + IntToString(total)
      + " - Say 'next page' or 'previous page')"
  }

  /** The two negative outcomes cannot be mistaken for one another. */
  lemma NotFoundIsNotNoData(entity: string, name: string, dataType: string, entity': string, name': string)
    ensures NotFound(entity, name) != NoData(dataType, entity', name')
  {
    assert NotFound(entity, name)[0] == 'I';
    assert NoData(dataType, entity', name')[0] == 'N';
  }
}
