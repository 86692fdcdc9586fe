/**
 * The search endpoint `GET /api/search-mbs?query=...`: it rejects a missing
 * query, looks an item code up exactly among the current rows, and sends any
 * other query to a keyword search capped at 50 results.
 */
module SearchRoute {
  import opened Wrappers
  import opened MbsTypes
  import opened JsText

  /** At most this many digits make an item code. */
  const MaxCodeDigits: nat := 5
  /** Keyword searches return at most this many rows. */
  const KeywordLimit: nat := 50

  const MissingQueryMessage := "Query parameter is required"
  const DataSourceMessage := "Error fetching data from Supabase"
  const InternalErrorMessage := "Internal server error"
  const UnexpectedErrorMessage := "An unexpected error occurred"

  /** The HTTP response: a JSON array of records (status 200) or a JSON error object. */
  datatype ApiResponse =
    | Found(items: seq<SearchResultItem>)
    | Failure(status: nat, error: string, details: Option<string>)

  // ---------------------------------------------------------------------------
  // The item-code pattern /^\d{1,5}[A-Z]?$/i
  // ---------------------------------------------------------------------------

  /** The recogniser, read one character at a time; `i` characters, all digits, are behind it. */
  predicate ScanCode(s: string, i: nat)
    requires i <= |s|
    decreases |s| - i
  {
    if i == |s| then 1 <= i
    else if IsAsciiDigit(s[i]) then i < MaxCodeDigits && ScanCode(s, i + 1)
    else 1 <= i && IsAsciiLetter(s[i]) && i + 1 == |s|
  }

  /** `mbsItemCodeRegex.test(s)`. */
  predicate IsItemCode(s: string) {
    ScanCode(s, 0)
  }

  /** The pattern stated directly: one to five digits, then at most one letter of either case. */
  predicate CodeShaped(s: string) {
    var n := if |s| > 0 && IsAsciiLetter(s[|s| - 1]) then |s| - 1 else |s|;
    1 <= n <= MaxCodeDigits && forall i :: 0 <= i < n ==> IsAsciiDigit(s[i])
  }

  lemma {:induction false} ScanCodeShaped(s: string, i: nat)
    requires i <= |s| && i <= MaxCodeDigits
    requires forall j :: 0 <= j < i ==> IsAsciiDigit(s[j])
    ensures ScanCode(s, i) <==> CodeShaped(s)
    decreases |s| - i
  {
    if i < |s| && IsAsciiDigit(s[i]) {
      if i < MaxCodeDigits {
        ScanCodeShaped(s, i + 1);
      } else {
        assert !IsAsciiLetter(s[i]);
        assert !CodeShaped(s) by {
          if |s| > 0 && IsAsciiLetter(s[|s| - 1]) {
            assert |s| - 1 > i;
          }
        }
      }
    } else if i < |s| {
      if CodeShaped(s) {
        assert IsAsciiLetter(s[|s| - 1]) && i == |s| - 1;
      }
    }
  }

  /** The recogniser accepts exactly the strings of the pattern. */
  lemma ItemCodeIsCodeShaped(s: string)
    ensures IsItemCode(s) <==> CodeShaped(s)
  {
    ScanCodeShaped(s, 0);
  }

  /** The examples the search form offers, and strings that are not item codes. */
  lemma ItemCodeExamples()
    ensures IsItemCode("30175") && IsItemCode("105a") && IsItemCode("105A")
    ensures !IsItemCode("") && !IsItemCode("123456") && !IsItemCode("A105") && !IsItemCode("knee surgery")
  {
    ItemCodeIsCodeShaped("30175");
    ItemCodeIsCodeShaped("105a");
    ItemCodeIsCodeShaped("105A");
    ItemCodeIsCodeShaped("");
    ItemCodeIsCodeShaped("123456");
    ItemCodeIsCodeShaped("A105");
    ItemCodeIsCodeShaped("knee surgery");
  }

  /**
   * An item code upper-cases to an item code, and on ASCII strings the
   * converse holds too. JavaScript's `toUpperCase` maps a few non-ASCII
   * letters to ASCII ones (U+0131 to "I", U+017F to "S"), so for the program
   * the converse does not hold on every string.
   */
  lemma UpperKeepsItemCode(s: string)
    ensures IsItemCode(s) ==> IsItemCode(ToUpper(s))
    ensures AllAscii(s) && IsItemCode(ToUpper(s)) ==> IsItemCode(s)
  {
    var u := ToUpper(s);
    forall i | 0 <= i < |s|
      ensures (IsAsciiDigit(u[i]) <==> IsAsciiDigit(s[i])) && (IsAsciiLetter(u[i]) <==> IsAsciiLetter(s[i]))
    {
      UpperCharFacts(s[i]);
    }
    ItemCodeIsCodeShaped(s);
    ItemCodeIsCodeShaped(u);
  }

  // ---------------------------------------------------------------------------
  // The keyword tsquery string
  // ---------------------------------------------------------------------------

  function Quote(t: string): string {
    "'" + t + "'"
  }

  /** The string handed to `textSearch`: the space-separated tokens, quoted and joined by " & ". */
  function TsQuery(query: string): string {
    "'" + Join(Split(query), "' & '") + "'"
  }

  /** The terms of a tsquery conjunction, as a reader splits it at spaces: quoted tokens with "&" between. */
  function AndTerms(tokens: seq<string>): seq<string> {
    if |tokens| == 0 then []
    else if |tokens| == 1 then [Quote(tokens[0])]
    else [Quote(tokens[0]), "&"] + AndTerms(tokens[1..])
  }

  lemma {:induction false} AndTermsShape(tokens: seq<string>)
    requires |tokens| >= 1
    ensures |AndTerms(tokens)| == 2 * |tokens| - 1
    ensures forall j :: 0 <= j < |AndTerms(tokens)| && j % 2 == 0 ==> AndTerms(tokens)[j] == Quote(tokens[j / 2])
    ensures forall j :: 0 <= j < |AndTerms(tokens)| && j % 2 == 1 ==> AndTerms(tokens)[j] == "&"
  {
    if |tokens| > 1 {
      var rest := tokens[1..];
      AndTermsShape(rest);
      var terms := AndTerms(tokens);
      assert terms == [Quote(tokens[0]), "&"] + AndTerms(rest);
      forall j | 2 <= j < |terms|
        ensures terms[j] == AndTerms(rest)[j - 2]
      {
      }
      forall j | 2 <= j < |terms| && j % 2 == 0
        ensures terms[j] == Quote(tokens[j / 2])
      {
        assert (j - 2) / 2 == j / 2 - 1;
        assert rest[(j - 2) / 2] == tokens[j / 2];
      }
    }
  }

  lemma {:induction false} AndTermsNoSpace(tokens: seq<string>)
    requires forall i :: 0 <= i < |tokens| ==> ' ' !in tokens[i]
    ensures forall j :: 0 <= j < |AndTerms(tokens)| ==> ' ' !in AndTerms(tokens)[j]
  {
    if |tokens| > 1 {
      AndTermsNoSpace(tokens[1..]);
    }
  }

  lemma JoinPair(a: string, b: string, rest: seq<string>, sep: string)
    requires |rest| >= 1
    ensures Join([a, b] + rest, sep) == a + sep + b + sep + Join(rest, sep)
  {
    var q := [a, b] + rest;
    assert q[1..] == [b] + rest;
    assert ([b] + rest)[1..] == rest;
  }

  /** The tsquery string is the quoted tokens and the "&" terms separated by single spaces. */
  lemma {:induction false} TsQueryAsTerms(tokens: seq<string>)
    requires |tokens| >= 1
    ensures "'" + Join(tokens, "' & '") + "'" == Join(AndTerms(tokens), " ")
  {
    if |tokens| > 1 {
      var rest := tokens[1..];
      TsQueryAsTerms(rest);
      JoinPair(Quote(tokens[0]), "&", AndTerms(rest), " ");
      AndTermsShape(rest);
      assert AndTerms(tokens) == [Quote(tokens[0]), "&"] + AndTerms(rest);
      assert Join(tokens, "' & '") == tokens[0] + "' & '" + Join(rest, "' & '");
    }
  }

  /**
   * The tsquery string, read back at its spaces, is the query's tokens in
   * order, each quoted verbatim, with one "&" between neighbours: there is one
   * separator fewer than there are tokens. Re-joining the tokens with spaces
   * gives the query back.
   */
  lemma TsQueryTokens(query: string)
    ensures Join(Split(query), " ") == query
    ensures var tokens := Split(query); var terms := Split(TsQuery(query));
      && |terms| == 2 * |tokens| - 1
      && (forall j :: 0 <= j < |terms| && j % 2 == 0 ==> terms[j] == Quote(tokens[j / 2]))
      && (forall j :: 0 <= j < |terms| && j % 2 == 1 ==> terms[j] == "&")
  {
    JoinSplit(query);
    var tokens := Split(query);
    TsQueryAsTerms(tokens);
    AndTermsShape(tokens);
    AndTermsNoSpace(tokens);
    SplitJoin(AndTerms(tokens));
  }

  // ---------------------------------------------------------------------------
  // The query and the data store
  // ---------------------------------------------------------------------------

  /** The query the endpoint runs: an exact code lookup or the keyword RPC (the tsquery string is built but unused). */
  datatype Plan =
    | CodeLookup(key: string)
    | KeywordSearch(searchQuery: string, tsQuery: string, limit: nat)

  /** The choice between the two queries for a non-empty `query`. */
  function PlanFor(query: string): (p: Plan)
    ensures p.CodeLookup? <==> IsItemCode(query)
    ensures p.CodeLookup? ==> p.key == ToUpper(query)
    ensures p.CodeLookup? ==> IsItemCode(p.key) && forall i :: 0 <= i < |p.key| ==> !IsAsciiLower(p.key[i])
    ensures p.KeywordSearch? ==> p.searchQuery == query && p.limit == KeywordLimit
    ensures p.KeywordSearch? ==> p.tsQuery == TsQuery(query)
  {
    if IsItemCode(query) then
      UpperKeepsItemCode(query);
      CodeLookup(ToUpper(query))
    else KeywordSearch(query, TsQuery(query), KeywordLimit)
  }

  /** A whitespace-only query is not rejected and is not an item code: it goes to keyword search. */
  lemma WhitespaceQueryIsKeywordSearch(query: string)
    requires query != "" && AllWhiteSpace(query)
    ensures PlanFor(query).KeywordSearch?
  {
    ItemCodeIsCodeShaped(query);
    assert !IsAsciiDigit(query[0]);
  }

  /** How the store fails: an error in the reply, or an exception while awaiting it. */
  datatype Fault = QueryError(message: string) | Exception(thrown: Option<string>)

  /**
   * The database as the endpoint sees it: the `mbs_items` table, the result
   * of the `search_mbs_items_by_description` function for a search string,
   * and a fault that makes every query fail.
   */
  datatype Store = Store(
    table: seq<MbsRow>,
    rankedSearch: string -> Option<seq<SearchResultItem>>,
    fault: Option<Fault>)

  /** The `{ data, error }` pair a query resolves to, or an exception. */
  datatype Reply =
    | Reply(data: Option<seq<SearchResultItem>>, error: Option<string>)
    | Thrown(message: Option<string>)

  /** `.eq('item_code', key).is('effective_to', null)`: the current rows with the key, each as often as in the table. */
  function CurrentRowsWithCode(table: seq<MbsRow>, key: string): (r: seq<MbsRow>)
    ensures |r| <= |table|
    ensures forall row :: row in r <==> row in table && row.itemCode == key && IsCurrent(row)
    ensures forall row :: row in r ==> multiset(r)[row] == multiset(table)[row]
  {
    if table == [] then []
    else
      var rest := CurrentRowsWithCode(table[1..], key);
      assert table == [table[0]] + table[1..];
      if table[0].itemCode == key && IsCurrent(table[0]) then [table[0]] + rest else rest
  }

  /** `.select(selectColumns)` over a list of rows. */
  function SelectAll(rows: seq<MbsRow>): (r: seq<SearchResultItem>)
    ensures |r| == |rows| && forall i :: 0 <= i < |rows| ==> r[i] == Select(rows[i])
  {
    if rows == [] then [] else [Select(rows[0])] + SelectAll(rows[1..])
  }

  /** `.limit(n)`: the first `n` results, or all of them when there are fewer. */
  function Limit<T>(xs: seq<T>, n: nat): (r: seq<T>)
    ensures |r| <= n && |r| <= |xs| && r == xs[..|r|]
    ensures |r| == if |xs| <= n then |xs| else n
  {
    if |xs| <= n then xs else xs[..n]
  }

  /** Awaiting the query the plan describes. */
  function Execute(plan: Plan, store: Store): (r: Reply)
    ensures store.fault.Some? <==> r.Thrown? || r.error.Some?
    ensures r.Reply? && r.error.Some? ==> r.data.None?
    ensures plan.CodeLookup? && store.fault.None? ==>
      r.data == Some(SelectAll(CurrentRowsWithCode(store.table, plan.key)))
    ensures plan.KeywordSearch? && store.fault.None? ==>
      var found := store.rankedSearch(plan.searchQuery);
      r == Reply(if found.Some? then Some(Limit(found.value, plan.limit)) else None, None)
  {
    match store.fault
    case Some(QueryError(m)) => Reply(None, Some(m))
    case Some(Exception(m)) => Thrown(m)
    case None =>
      match plan
      case CodeLookup(key) => Reply(Some(SelectAll(CurrentRowsWithCode(store.table, key))), None)
      case KeywordSearch(q, _, limit) =>
        match store.rankedSearch(q)
        case None => Reply(None, None)
        case Some(rows) => Reply(Some(Limit(rows, limit)), None)
  }

  /** Turning the reply into the HTTP response. */
  function Respond(reply: Reply): (r: ApiResponse)
    ensures reply.Thrown? ==> r == Failure(500, InternalErrorMessage, Some(reply.message.GetOr(UnexpectedErrorMessage)))
    ensures reply.Reply? && reply.error.Some? ==> r == Failure(500, DataSourceMessage, reply.error)
    ensures reply.Reply? && reply.error.None? ==> r == Found(reply.data.GetOr([]))
  {
    match reply
    case Thrown(m) => Failure(500, InternalErrorMessage, Some(m.GetOr(UnexpectedErrorMessage)))
    case Reply(data, error) =>
      if error.Some? then Failure(500, DataSourceMessage, Some(error.value))
      else Found(data.GetOr([]))
  }

  /**
   * The endpoint. `query` is the `query` search parameter, `None` when it is
   * absent. Only a missing or empty query is a 400; every store failure is a
   * 500; code lookups return only records with the upper-cased code, keyword
   * searches at most 50 records.
   */
  function Get(query: Option<string>, store: Store): (r: ApiResponse)
    ensures query.None? || query == Some("") ==> r == Failure(400, MissingQueryMessage, None)
    ensures r.Failure? ==> r.status == 400 || r.status == 500
    ensures r.Failure? && r.status == 400 ==> query.None? || query == Some("")
    ensures query.Some? && query.value != "" ==> (r.Found? <==> store.fault.None?)
    ensures query.Some? && query.value != "" && store.fault.Some? ==> r.Failure? && r.status == 500
    ensures r.Found? && query.Some? && !IsItemCode(query.value) ==> |r.items| <= KeywordLimit
    ensures r.Found? && query.Some? && IsItemCode(query.value) ==>
      forall i :: 0 <= i < |r.items| ==> r.items[i].itemCode == ToUpper(query.value)
  {
    if query.None? || query.value == "" then Failure(400, MissingQueryMessage, None)
    else Respond(Execute(PlanFor(query.value), store))
  }

  /**
   * With the store up, a code lookup answers exactly the current rows whose
   * code is the upper-cased query, projected onto the selected columns.
   */
  lemma CodeLookupAnswers(query: string, store: Store)
    requires IsItemCode(query) && store.fault.None?
    ensures Get(Some(query), store) == Found(SelectAll(CurrentRowsWithCode(store.table, ToUpper(query))))
    ensures forall item :: item in Get(Some(query), store).items <==>
      exists row :: row in store.table && IsCurrent(row) && row.itemCode == ToUpper(query) && Select(row) == item
  {
    ItemCodeIsCodeShaped(query);
    var rows := CurrentRowsWithCode(store.table, ToUpper(query));
    var items := SelectAll(rows);
    forall item | item in items
      ensures exists row :: row in store.table && IsCurrent(row) && row.itemCode == ToUpper(query) && Select(row) == item
    {
      var i :| 0 <= i < |items| && items[i] == item;
      assert rows[i] in rows;
    }
    forall row | row in store.table && IsCurrent(row) && row.itemCode == ToUpper(query)
      ensures Select(row) in items
    {
      var i :| 0 <= i < |rows| && rows[i] == row;
      assert items[i] == Select(row);
    }
  }

  /**
   * With the store up, a keyword query is answered with the first 50 records
   * of the ranked search, or with `[]` when the search gives no data.
   */
  lemma KeywordSearchAnswers(query: string, store: Store)
    requires query != "" && !IsItemCode(query) && store.fault.None?
    ensures store.rankedSearch(query).Some? ==>
      Get(Some(query), store) == Found(Limit(store.rankedSearch(query).value, KeywordLimit))
    ensures store.rankedSearch(query).None? ==> Get(Some(query), store) == Found([])
  {
  }

  /** A failing store is answered with status 500 and the error object of the way it failed. */
  lemma StoreFaultAnswers(query: string, store: Store)
    requires query != "" && store.fault.Some?
    ensures store.fault.value.QueryError? ==>
      Get(Some(query), store) == Failure(500, DataSourceMessage, Some(store.fault.value.message))
    ensures store.fault.value.Exception? ==>
      Get(Some(query), store) == Failure(500, InternalErrorMessage, Some(store.fault.value.thrown.GetOr(UnexpectedErrorMessage)))
  {
  }

  /** Code lookups ignore the case of the letter: "105a" and "105A" get the same answer. */
  lemma CodeLookupIgnoresCase(q1: string, q2: string, store: Store)
    requires IsItemCode(q1) && IsItemCode(q2) && ToUpper(q1) == ToUpper(q2)
    ensures Get(Some(q1), store) == Get(Some(q2), store)
  {
    UpperKeepsItemCode(q1);
    UpperKeepsItemCode(q2);
    ItemCodeIsCodeShaped(q1);
    ItemCodeIsCodeShaped(q2);
  }
}
