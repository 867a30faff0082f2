/** The `page_size` query parameter shared by the paged listings. */
module Query {
  import opened Wrappers
  import Fmt
  import Paths

  const PageSizeParam := "page_size"

  /** `page_size=` followed by the page size in `%d` form; the value reads back. */
  function PageSizeQuery(pageSize: int): (q: string)
    ensures |q| > |PageSizeParam| + 1 && q[..|PageSizeParam| + 1] == PageSizeParam + "="
    ensures Fmt.ParseInt(q[|PageSizeParam| + 1..]) == Some(pageSize)
    ensures Fmt.NoLeadingZero(q[|PageSizeParam| + 1..])
  {
    var d := Fmt.IntToDecimal(pageSize);
    Fmt.IntToDecimalRoundTrip(pageSize);
    assert (PageSizeParam + "=" + d)[|PageSizeParam| + 1..] == d;
    PageSizeParam + "=" + d
  }

  /** Read at `=`, the parameter is its name and the decimal page size. */
  lemma PageSizeQuerySplit(pageSize: int)
    ensures Paths.Split(PageSizeQuery(pageSize), '=') == [PageSizeParam, Fmt.IntToDecimal(pageSize)]
  {
    var d := Fmt.IntToDecimal(pageSize);
    PageSizeParamIsPlain();
    assert PageSizeQuery(pageSize) == PageSizeParam + ['='] + d;
    Paths.SplitAfter(PageSizeParam, '=', d);
    assert '=' !in d;
  }

  /** The whole parameter holds no `?` and no `&`: the decimal value is digits
      and at most a minus sign. */
  lemma PageSizeQueryIsPlain(pageSize: int)
    ensures '?' !in PageSizeQuery(pageSize) && '&' !in PageSizeQuery(pageSize)
  {
    var d := Fmt.IntToDecimal(pageSize);
    PageSizeParamIsPlain();
    assert PageSizeQuery(pageSize) == PageSizeParam + "=" + d;
    assert '?' !in d && '&' !in d;
  }

  /** The parameter name holds none of the query separators. */
  lemma PageSizeParamIsPlain()
    ensures '?' !in PageSizeParam && '&' !in PageSizeParam && '=' !in PageSizeParam
  {
  }
}
