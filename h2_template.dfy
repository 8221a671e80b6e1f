/** The H2 dialect of the paging data-access template: the `LIMIT first,pageSize`
    rewrite of a query and the five `findPage*` operations that fill a page. */
module H2 {
  import opened Wrappers
  import opened JavaInts

  /** Messages of the argument checks that open every `findPage*` operation. */
  const PageRequiredMessage: string := "分页信息不能为空"
  const SqlInvalidMessage: string := "sql语句不正确!"

  const LimitKeyword: string := " LIMIT "

  /** Java's Character.isWhitespace as of Java 8: the Unicode space, line and
      paragraph separators other than the no-break spaces (U+180E, the Mongolian
      vowel separator, is still a space separator there), and the ASCII controls
      tab, line feed, vertical tab, form feed, carriage return and 0x1C-0x1F. */
  predicate IsWhitespace(ch: char) {
    || ch == ' '
    || '\t' <= ch <= '\r'
    || '\U{1C}' <= ch <= '\U{1F}'
    || ch == '\U{1680}'
    || '\U{2000}' <= ch <= '\U{2006}'
    || '\U{2008}' <= ch <= '\U{200A}'
    || ch == '\U{2028}' || ch == '\U{2029}'
    || ch == '\U{205F}' || ch == '\U{3000}'
    || ch == '\U{180E}'
  }

  /** The "has text" check on the query: some character is not whitespace. */
  function HasText(s: string): (r: bool)
    ensures r <==> exists i :: 0 <= i < |s| && !IsWhitespace(s[i])
  {
    if s == [] then false
    else if !IsWhitespace(s[0]) then true
    else
      var rest := HasText(s[1..]);
      assert rest ==> exists i :: 0 <= i < |s| && !IsWhitespace(s[i]) by {
        if rest {
          var j :| 0 <= j < |s[1..]| && !IsWhitespace(s[1..][j]);
          assert !IsWhitespace(s[j + 1]);
        }
      }
      assert (exists i :: 0 <= i < |s| && !IsWhitespace(s[i])) ==> rest by {
        if exists i :: 0 <= i < |s| && !IsWhitespace(s[i]) {
          var i :| 0 <= i < |s| && !IsWhitespace(s[i]);
          assert i > 0 && !IsWhitespace(s[1..][i - 1]);
        }
      }
      rest
  }

  /** Position of the first `c` in `s`. */
  function IndexOf(s: string, c: char): (r: Option<nat>)
    ensures r.Some? ==> r.value < |s| && s[r.value] == c && c !in s[..r.value]
    ensures r.None? ==> c !in s
  {
    if s == [] then None
    else if s[0] == c then Some(0)
    else match IndexOf(s[1..], c)
      case None => None
      case Some(k) =>
        assert s[..k + 1] == [s[0]] + s[1..][..k];
        Some(k + 1)
  }

  /** Reads a clause ` LIMIT a,b` back into its offset and page size. */
  function ParseLimitClause(s: string): Option<(int, int)> {
    if |s| < |LimitKeyword| || s[..|LimitKeyword|] != LimitKeyword then None
    else
      var body := s[|LimitKeyword|..];
      match IndexOf(body, ',')
      case None => None
      case Some(k) =>
        match (ParseDecimal(body[..k]), ParseDecimal(body[k + 1..]))
        case (Some(a), Some(b)) => Some((a, b))
        case _ => None
  }

  /** The first comma of `x + [','] + y` is the one after `x` when `x` has none. */
  lemma IndexOfAfter(x: string, y: string)
    requires ',' !in x
    ensures IndexOf(x + [','] + y, ',') == Some(|x|)
  {
    var s := x + [','] + y;
    assert s[|x|] == ',';
    assert s[..|x|] == x;
  }

  /** A clause built from two ints reads back as those two ints. */
  lemma LimitClauseReadsBack(a: int, b: int)
    ensures ParseLimitClause(LimitKeyword + IntToDecimal(a) + "," + IntToDecimal(b)) == Some((a, b))
  {
    var x, y := IntToDecimal(a), IntToDecimal(b);
    var s := LimitKeyword + x + "," + y;
    var body := x + [','] + y;
    assert s[..|LimitKeyword|] == LimitKeyword && s[|LimitKeyword|..] == body;
    IndexOfAfter(x, y);
    assert body[..|x|] == x && body[|x| + 1..] == y;
    IntToDecimalRoundTrip(a);
    IntToDecimalRoundTrip(b);
  }

  /** A text the clause parser accepts is the clause built from what it reads. */
  lemma ParseLimitClauseExact(s: string)
    ensures ParseLimitClause(s).Some? ==>
              s == LimitKeyword + IntToDecimal(ParseLimitClause(s).value.0) + "," + IntToDecimal(ParseLimitClause(s).value.1)
  {
    if ParseLimitClause(s).Some? {
      var body := s[|LimitKeyword|..];
      var k := IndexOf(body, ',').value;
      ParseDecimalExact(body[..k]);
      ParseDecimalExact(body[k + 1..]);
      assert body == body[..k] + [','] + body[k + 1..];
      assert s == s[..|LimitKeyword|] + body;
    }
  }

  /** The clause appended for H2 paging: it starts with the keyword, reads back as
      exactly the offset and page size it was built from, and is the only text that
      reads back as them. */
  function LimitClause(first: int32, pageSize: int32): (s: string)
    ensures |LimitKeyword| < |s| && s[..|LimitKeyword|] == LimitKeyword
    ensures ParseLimitClause(s) == Some((first as int, pageSize as int))
    ensures forall t :: ParseLimitClause(t) == Some((first as int, pageSize as int)) ==> t == s
  {
    LimitClauseReadsBack(first as int, pageSize as int);
    var s := LimitKeyword + IntToDecimal(first as int) + "," + IntToDecimal(pageSize as int);
    assert forall t :: ParseLimitClause(t) == Some((first as int, pageSize as int)) ==> t == s by {
      forall t | ParseLimitClause(t) == Some((first as int, pageSize as int)) ensures t == s {
        ParseLimitClauseExact(t);
      }
    }
    s
  }

  /** getSqlOfH2: the data query of a page. The query is left alone unless both the
      offset and the page size were set; then a LIMIT clause carrying both is appended. */
  function SqlOfH2(sql: string, first: Option<int32>, pageSize: Option<int32>): (r: string)
    ensures |sql| <= |r| && r[..|sql|] == sql
    ensures r == sql <==> first.None? || pageSize.None?
    ensures first.Some? && pageSize.Some? ==>
              ParseLimitClause(r[|sql|..]) == Some((first.value as int, pageSize.value as int))
    ensures first.Some? && pageSize.Some? ==>
              forall t :: ParseLimitClause(t) == Some((first.value as int, pageSize.value as int)) ==> t == r[|sql|..]
  {
    if first.Some? && pageSize.Some? then
      var r := sql + LimitClause(first.value, pageSize.value);
      assert r[|sql|..] == LimitClause(first.value, pageSize.value);
      r
    else sql
  }

  /** Two paged queries over the same base query are the same text only when they
      page the same way. */
  lemma SqlOfH2Injective(sql: string, a: int32, b: int32, a': int32, b': int32)
    ensures SqlOfH2(sql, Some(a), Some(b)) == SqlOfH2(sql, Some(a'), Some(b')) ==> a == a' && b == b'
  {
    var r, r' := SqlOfH2(sql, Some(a), Some(b)), SqlOfH2(sql, Some(a'), Some(b'));
    if r == r' {
      assert ParseLimitClause(r[|sql|..]) == Some((a as int, b as int));
      assert ParseLimitClause(r'[|sql|..]) == Some((a' as int, b' as int));
    }
  }

  /** The three calling conventions for query parameters. */
  datatype Params<V> = Positional(values: seq<V>) | Named(entries: map<string, V>) | Bean(bean: V)

  /** Rows come back as field-name maps, or mapped onto beans. */
  datatype Shape = RowMaps | Beans

  /** A statement sent to the datasource. */
  datatype Statement<V> =
    | CountQuery(sql: string, params: Params<V>)
    | ListQuery(sql: string, params: Params<V>, shape: Shape)

  /** The statements of the count phase: the count query over the count form of
      `sql` when auto-counting, nothing otherwise. */
  function CountPhase<V>(countSqlOf: string -> string, sql: string, autoCount: bool, params: Params<V>): seq<Statement<V>> {
    if autoCount then [CountQuery(countSqlOf(sql), params)] else []
  }

  /** The statements one successful `findPage*` call sends, in order: the count
      phase, then the paged data query. */
  function Plan<V>(countSqlOf: string -> string, sql: string, first: Option<int32>, pageSize: Option<int32>,
                   autoCount: bool, params: Params<V>, shape: Shape): seq<Statement<V>>
  {
    CountPhase(countSqlOf, sql, autoCount, params) + [ListQuery(SqlOfH2(sql, first, pageSize), params, shape)]
  }

  /** A served call sends two statements when auto-counting and one otherwise; a
      count query can only come first, and only when auto-counting; the last
      statement is the paged data query; every statement carries the caller's parameters. */
  lemma PlanOrder<V>(countSqlOf: string -> string, sql: string, first: Option<int32>, pageSize: Option<int32>,
                     autoCount: bool, params: Params<V>, shape: Shape)
    ensures var r := Plan(countSqlOf, sql, first, pageSize, autoCount, params, shape);
      && |r| == (if autoCount then 2 else 1)
      && (autoCount ==> r[0] == CountQuery(countSqlOf(sql), params))
      && r[|r| - 1] == ListQuery(SqlOfH2(sql, first, pageSize), params, shape)
      && (forall k :: 0 <= k < |r| ==> r[k].params == params)
      && (forall k :: 0 <= k < |r| && r[k].CountQuery? ==> k == 0 && autoCount)
  {
  }

  lemma AppendAssociates<X>(a: seq<X>, b: seq<X>, c: seq<X>)
    ensures a + b + c == a + (b + c)
  {
  }

  /** The page request and result. `first` and `pageSize` are None while unset. */
  class Page<V, T> {
    var first: Option<int32>
    var pageSize: Option<int32>
    var autoCount: bool
    var totalCount: int32
    var rawResult: seq<map<string, V>>
    var tResult: seq<T>

    constructor (first: Option<int32>, pageSize: Option<int32>, autoCount: bool)
      ensures this.first == first && this.pageSize == pageSize && this.autoCount == autoCount
      ensures totalCount == 0 && rawResult == [] && tResult == []
    {
      this.first := first;
      this.pageSize := pageSize;
      this.autoCount := autoCount;
      totalCount := 0;
      rawResult := [];
      tResult := [];
    }
  }

  /** The H2 template over one datasource. What the datasource answers, and the
      count form of a query, come from the inherited data-access layer and are
      taken as given functions; `issued` records the statements sent so far. */
  class H2Template<V, T> {
    const countSqlOf: string -> string
    const queryNumber: (string, Params<V>) -> int64
    const listMaps: (string, Params<V>) -> seq<map<string, V>>
    const listBeans: (string, Params<V>) -> seq<T>
    var issued: seq<Statement<V>>

    constructor (countSqlOf: string -> string, queryNumber: (string, Params<V>) -> int64,
                 listMaps: (string, Params<V>) -> seq<map<string, V>>, listBeans: (string, Params<V>) -> seq<T>)
      ensures this.countSqlOf == countSqlOf && this.queryNumber == queryNumber
      ensures this.listMaps == listMaps && this.listBeans == listBeans
      ensures issued == []
    {
      this.countSqlOf := countSqlOf;
      this.queryNumber := queryNumber;
      this.listMaps := listMaps;
      this.listBeans := listBeans;
      issued := [];
    }

    /** queryNumberBy*: sends a scalar query and returns its number. */
    method QueryNumber(sql: string, params: Params<V>) returns (n: int64)
      modifies this`issued
      ensures n == queryNumber(sql, params)
      ensures issued == old(issued) + [CountQuery(sql, params)]
    {
      n := queryNumber(sql, params);
      issued := issued + [CountQuery(sql, params)];
    }

    /** findListMapBy*: sends a query and returns its rows as field-name maps. */
    method FindListMap(sql: string, params: Params<V>) returns (rows: seq<map<string, V>>)
      modifies this`issued
      ensures rows == listMaps(sql, params)
      ensures issued == old(issued) + [ListQuery(sql, params, RowMaps)]
    {
      rows := listMaps(sql, params);
      issued := issued + [ListQuery(sql, params, RowMaps)];
    }

    /** findListBeanBy*: sends a query and returns its rows mapped onto beans. */
    method FindListBean(sql: string, params: Params<V>) returns (beans: seq<T>)
      modifies this`issued
      ensures beans == listBeans(sql, params)
      ensures issued == old(issued) + [ListQuery(sql, params, Beans)]
    {
      beans := listBeans(sql, params);
      issued := issued + [ListQuery(sql, params, Beans)];
    }

    /** What a `findPage*` call that passed its argument checks leaves behind:
        the planned statements were sent; offset, page size and the auto-count
        flag are as before; the total is the narrowed count when auto-counting
        and untouched otherwise; the rows of the paged query land in the result
        slot of the requested shape and the other slot is untouched. */
    twostate predicate Served(sql: string, page: Page<V, T>, params: Params<V>, shape: Shape)
      reads this, page
    {
      && issued == old(issued) + Plan(countSqlOf, sql, old(page.first), old(page.pageSize), old(page.autoCount), params, shape)
      && page.first == old(page.first) && page.pageSize == old(page.pageSize)
      && page.autoCount == old(page.autoCount)
      && page.totalCount == (if old(page.autoCount) then NarrowToInt(queryNumber(countSqlOf(sql), params))
                             else old(page.totalCount))
      && (shape == RowMaps ==>
            page.rawResult == listMaps(SqlOfH2(sql, page.first, page.pageSize), params)
            && page.tResult == old(page.tResult))
      && (shape == Beans ==>
            page.tResult == listBeans(SqlOfH2(sql, page.first, page.pageSize), params)
            && page.rawResult == old(page.rawResult))
    }

    /** The count phase: when the page asks for it, send the count query and store
        the narrowed count; otherwise send nothing and leave the total alone. */
    method CountIfAsked(sql: string, page: Page<V, T>, params: Params<V>)
      modifies this`issued, page`totalCount
      ensures issued == old(issued) + CountPhase(countSqlOf, sql, page.autoCount, params)
      ensures page.totalCount == if page.autoCount then NarrowToInt(queryNumber(countSqlOf(sql), params))
                                 else old(page.totalCount)
    {
      if page.autoCount {
        var count := QueryNumber(countSqlOf(sql), params);
        page.totalCount := NarrowToInt(count);
      }
    }

    /** The data phase: send the paged query and store its rows in the slot of the
        requested shape. */
    method FetchRows(sql: string, page: Page<V, T>, params: Params<V>, shape: Shape)
      modifies this`issued, page`rawResult, page`tResult
      ensures issued == old(issued) + [ListQuery(SqlOfH2(sql, page.first, page.pageSize), params, shape)]
      ensures shape == RowMaps ==>
                page.rawResult == listMaps(SqlOfH2(sql, page.first, page.pageSize), params)
                && page.tResult == old(page.tResult)
      ensures shape == Beans ==>
                page.tResult == listBeans(SqlOfH2(sql, page.first, page.pageSize), params)
                && page.rawResult == old(page.rawResult)
    {
      var dataSql := SqlOfH2(sql, page.first, page.pageSize);
      if shape == RowMaps {
        var rows := FindListMap(dataSql, params);
        page.rawResult := rows;
      } else {
        var beans := FindListBean(dataSql, params);
        page.tResult := beans;
      }
    }

    /** A call that passed its checks: the count phase, then the data phase. Only the
        issued statements, the total and the two result slots may change. */
    method Serve(sql: string, page: Page<V, T>, params: Params<V>, shape: Shape)
      modifies this`issued, page`totalCount, page`rawResult, page`tResult
      ensures Served(sql, page, params, shape)
    {
      CountIfAsked(sql, page, params);
      ghost var counts := CountPhase(countSqlOf, sql, page.autoCount, params);
      FetchRows(sql, page, params, shape);
      ghost var data := [ListQuery(SqlOfH2(sql, page.first, page.pageSize), params, shape)];
      AppendAssociates(old(issued), counts, data);
    }

    /** The sequence every `findPage*` operation follows: check the page and the
        query, count first when asked to, then fetch the page's rows and hand the
        same page back. A failed check sends nothing and changes nothing. */
    method FindPage(sql: string, page: Page?<V, T>, params: Params<V>, shape: Shape)
      returns (r: Result<Page<V, T>, string>)
      modifies this`issued, page
      ensures page == null ==> r == Failure(PageRequiredMessage) && issued == old(issued)
      ensures page != null && !HasText(sql) ==>
                r == Failure(SqlInvalidMessage) && issued == old(issued) && unchanged(page)
      ensures page != null && HasText(sql) ==> r == Success(page) && Served(sql, page, params, shape)
    {
      if page == null {
        return Failure(PageRequiredMessage);
      }
      if !HasText(sql) {
        return Failure(SqlInvalidMessage);
      }
      Serve(sql, page, params, shape);
      return Success(page);
    }

    method FindPageListMapByArray(sql: string, page: Page?<V, T>, arrayParameters: seq<V>)
      returns (r: Result<Page<V, T>, string>)
      modifies this`issued, page
      ensures page == null ==> r == Failure(PageRequiredMessage) && issued == old(issued)
      ensures page != null && !HasText(sql) ==>
                r == Failure(SqlInvalidMessage) && issued == old(issued) && unchanged(page)
      ensures page != null && HasText(sql) ==>
                r == Success(page) && Served(sql, page, Positional(arrayParameters), RowMaps)
    {
      r := FindPage(sql, page, Positional(arrayParameters), RowMaps);
    }

    method FindPageListMapByMap(sql: string, page: Page?<V, T>, mapParameter: map<string, V>)
      returns (r: Result<Page<V, T>, string>)
      modifies this`issued, page
      ensures page == null ==> r == Failure(PageRequiredMessage) && issued == old(issued)
      ensures page != null && !HasText(sql) ==>
                r == Failure(SqlInvalidMessage) && issued == old(issued) && unchanged(page)
      ensures page != null && HasText(sql) ==>
                r == Success(page) && Served(sql, page, Named(mapParameter), RowMaps)
    {
      r := FindPage(sql, page, Named(mapParameter), RowMaps);
    }

    method FindPageListBeanByArray(sql: string, page: Page?<V, T>, arrayParameters: seq<V>)
      returns (r: Result<Page<V, T>, string>)
      modifies this`issued, page
      ensures page == null ==> r == Failure(PageRequiredMessage) && issued == old(issued)
      ensures page != null && !HasText(sql) ==>
                r == Failure(SqlInvalidMessage) && issued == old(issued) && unchanged(page)
      ensures page != null && HasText(sql) ==>
                r == Success(page) && Served(sql, page, Positional(arrayParameters), Beans)
    {
      r := FindPage(sql, page, Positional(arrayParameters), Beans);
    }

    method FindPageListBeanByMap(sql: string, page: Page?<V, T>, mapParameter: map<string, V>)
      returns (r: Result<Page<V, T>, string>)
      modifies this`issued, page
      ensures page == null ==> r == Failure(PageRequiredMessage) && issued == old(issued)
      ensures page != null && !HasText(sql) ==>
                r == Failure(SqlInvalidMessage) && issued == old(issued) && unchanged(page)
      ensures page != null && HasText(sql) ==>
                r == Success(page) && Served(sql, page, Named(mapParameter), Beans)
    {
      r := FindPage(sql, page, Named(mapParameter), Beans);
    }

    method FindPageListBeanByBean(sql: string, page: Page?<V, T>, beanParameter: V)
      returns (r: Result<Page<V, T>, string>)
      modifies this`issued, page
      ensures page == null ==> r == Failure(PageRequiredMessage) && issued == old(issued)
      ensures page != null && !HasText(sql) ==>
                r == Failure(SqlInvalidMessage) && issued == old(issued) && unchanged(page)
      ensures page != null && HasText(sql) ==>
                r == Success(page) && Served(sql, page, Bean(beanParameter), Beans)
    {
      r := FindPage(sql, page, Bean(beanParameter), Beans);
    }
  }
}
