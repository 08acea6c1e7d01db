/** The query string of the report-list request (Query/ReportsParamQuery.cs):
    the parameters of the base class, then a filter fragment chosen by
    `Filter_Type` and `Search_Field`, then an order fragment chosen by
    `Order_Field` and followed by the base class's order direction. */
module ReportsQuery {

  /** The filter kinds of the base class `QuerySearchParameter`, as far as
      `FilterParam` names them. */
  datatype FilterType = None | Field | FieldPrefix | FieldSearch | Special

  datatype SearchField = Filename

  datatype OrderField = None | Filename | Created_At

  /** The fields `Param` reads. `baseParam` is what `base.Param()` returns and
      `orderDirection` is the base class's `GetOrderDirection`; both are
      taken as given text. */
  datatype ReportsParamQuery = ReportsParamQuery(
    baseParam: string,
    filterType: FilterType,
    searchField: SearchField,
    orderField: OrderField,
    orderDirection: string)

  /** The values the reports endpoint expects for `filter_type`,
      `filter_field` and `order_field`. */
  function FilterTypeName(t: FilterType): string
    requires t != FilterType.None
  {
    match t
    case Field => "field"
    case FieldPrefix => "field-prefix"
    case FieldSearch => "field-search"
    case Special => "special"
  }

  function SearchFieldName(f: SearchField): string {
    match f
    case Filename => "filename"
  }

  function OrderFieldName(f: OrderField): string
    requires f != OrderField.None
  {
    match f
    case Filename => "filename"
    case Created_At => "created_at"
  }

  /** The first switch of `FilterParam`: the `filter_type` parameter. */
  function FilterTypeParam(t: FilterType): (r: string)
    requires t != FilterType.None
    ensures r == "&filter_type=" + FilterTypeName(t)
  {
    match t
    case Field => "&filter_type=field"
    case FieldPrefix => "&filter_type=field-prefix"
    case FieldSearch => "&filter_type=field-search"
    case Special => "&filter_type=special"
  }

  /** The second switch of `FilterParam`: the `filter_field` parameter. */
  function SearchFieldParam(f: SearchField): (r: string)
    ensures r == "&filter_field=" + SearchFieldName(f)
  {
    match f
    case Filename => "&filter_field=filename"
  }

  /** Empty exactly when there is no filter (the search field is then not
      looked at); otherwise the filter type followed by the search field,
      which can only be `filename`. */
  function FilterParam(q: ReportsParamQuery): (r: string)
    ensures q.filterType == FilterType.None <==> r == ""
    ensures q.filterType != FilterType.None ==>
              r == "&filter_type=" + FilterTypeName(q.filterType) + "&filter_field=filename"
  {
    if q.filterType == FilterType.None then ""
    else FilterTypeParam(q.filterType) + SearchFieldParam(q.searchField)
  }

  /** Empty exactly when there is no order field, in which case the direction
      is dropped as well; otherwise the order field followed by the direction. */
  function OrderParam(q: ReportsParamQuery): (r: string)
    ensures q.orderField == OrderField.None <==> r == ""
    ensures q.orderField != OrderField.None ==>
              r == "&order_field=" + OrderFieldName(q.orderField) + q.orderDirection
  {
    match q.orderField
    case None => ""
    case Filename => "&order_field=filename" + q.orderDirection
    case Created_At => "&order_field=created_at" + q.orderDirection
  }

  /** The base parameters come first, unchanged; with neither filter nor
      order the result is the base parameters alone. */
  function Param(q: ReportsParamQuery): (r: string)
    ensures |r| >= |q.baseParam| && r[..|q.baseParam|] == q.baseParam
    ensures q.filterType == FilterType.None && q.orderField == OrderField.None ==> r == q.baseParam
  {
    q.baseParam + FilterParam(q) + OrderParam(q)
  }

  /** A proof device, not part of the query builder: reads the filter type
      back from the characters where the four `filter_type` fragments first
      differ. */
  function FilterTypeAt(s: string): FilterType
    requires |s| > 19
  {
    if s[13] == 's' then Special
    else if s[18] == '&' then Field
    else if s[19] == 'p' then FieldPrefix
    else FieldSearch
  }

  /** A filter fragment starts "&f", has at least twenty characters and
      names its filter type within them. */
  lemma FilterParamSignature(q: ReportsParamQuery)
    requires q.filterType != FilterType.None
    ensures |FilterParam(q)| > 19 && FilterParam(q)[1] == 'f'
    ensures FilterTypeAt(FilterParam(q)) == q.filterType
  {
  }

  /** An order fragment starts "&o" and names its order field at index 13. */
  lemma OrderParamSignature(q: ReportsParamQuery)
    requires q.orderField != OrderField.None
    ensures |OrderParam(q)| > 19 && OrderParam(q)[1] == 'o'
    ensures OrderParam(q)[13] == (if q.orderField == OrderField.Filename then 'f' else 'c')
    ensures OrderParam(q)[|"&order_field=" + OrderFieldName(q.orderField)|..] == q.orderDirection
  {
    var name := "&order_field=" + OrderFieldName(q.orderField);
    assert OrderParam(q) == name + q.orderDirection;
  }

  /** The four filter fragments are pairwise distinct. */
  lemma FilterFragmentsDistinct(q1: ReportsParamQuery, q2: ReportsParamQuery)
    requires FilterParam(q1) == FilterParam(q2)
    ensures q1.filterType == q2.filterType
  {
    if q1.filterType != FilterType.None && q2.filterType != FilterType.None {
      FilterParamSignature(q1);
      FilterParamSignature(q2);
    }
  }

  /** Two queries over the same base parameters that give the same query
      string have the same filter type and the same order field, and when
      they order, the same direction: the string says what was selected. */
  lemma ParamDeterminesSelection(q1: ReportsParamQuery, q2: ReportsParamQuery)
    requires q1.baseParam == q2.baseParam
    requires Param(q1) == Param(q2)
    ensures q1.filterType == q2.filterType
    ensures q1.orderField == q2.orderField
    ensures q1.orderField != OrderField.None ==> q1.orderDirection == q2.orderDirection
  {
    ParamAfterBase(q1);
    ParamAfterBase(q2);
    FiltersAgree(q1, q2, Param(q1)[|q1.baseParam|..]);
    FilterFragmentsDistinct(q1, q2);
    CancelPrefix(FilterParam(q1), OrderParam(q1), OrderParam(q2));
    OrderFragmentsDistinct(q1, q2);
  }

  lemma ParamAfterBase(q: ReportsParamQuery)
    ensures Param(q)[|q.baseParam|..] == FilterParam(q) + OrderParam(q)
  {
  }

  lemma CancelPrefix(a: string, x: string, y: string)
    requires a + x == a + y
    ensures x == y
  {
    assert x == (a + x)[|a|..];
    assert y == (a + y)[|a|..];
  }

  /** Equal order fragments come from the same order field and, when there
      is one, the same direction. */
  lemma OrderFragmentsDistinct(q1: ReportsParamQuery, q2: ReportsParamQuery)
    requires OrderParam(q1) == OrderParam(q2)
    ensures q1.orderField == q2.orderField
    ensures q1.orderField != OrderField.None ==> q1.orderDirection == q2.orderDirection
  {
    if q1.orderField != OrderField.None && q2.orderField != OrderField.None {
      OrderParamSignature(q1);
      OrderParamSignature(q2);
    }
  }

  /** Whether a query filters shows in the second character of what
      follows the base parameters: "&f" for a filter, "&o" for an order. */
  lemma FragmentsHead(q: ReportsParamQuery, t: string)
    requires t == FilterParam(q) + OrderParam(q)
    ensures t == "" || (|t| > 1 && (t[1] == 'f' <==> FilterParam(q) != ""))
  {
    if FilterParam(q) != "" {
      FilterParamSignature(q);
      assert t[1] == FilterParam(q)[1];
    } else if OrderParam(q) != "" {
      OrderParamSignature(q);
      assert t[1] == OrderParam(q)[1];
    }
  }

  /** When filter-then-order fragments of two queries spell the same text,
      the filter fragments are the same. */
  lemma FiltersAgree(q1: ReportsParamQuery, q2: ReportsParamQuery, t: string)
    requires t == FilterParam(q1) + OrderParam(q1) == FilterParam(q2) + OrderParam(q2)
    ensures FilterParam(q1) == FilterParam(q2)
  {
    var f1, f2 := FilterParam(q1), FilterParam(q2);
    FragmentsHead(q1, t);
    FragmentsHead(q2, t);
    if f1 != "" && f2 != "" {
      FilterParamSignature(q1);
      FilterParamSignature(q2);
      assert t[13] == f1[13] == f2[13];
      assert t[18] == f1[18] == f2[18];
      assert t[19] == f1[19] == f2[19];
      assert FilterTypeAt(f1) == FilterTypeAt(f2);
    }
  }
}
