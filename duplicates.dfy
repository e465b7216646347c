/**
 * The duplicate detector (checkDuplicate in lib/database.ts). The product
 * table is an input: Some(rows) is the table as the two queries see it, in
 * their order, and None stands for a query that failed.
 */
module Duplicates {
  import opened Wrappers
  import opened Types
  import opened Strings

  /** The columns the two lookups read from a stored product. */
  datatype StoreRow = StoreRow(id: string, cjUrl: string, name: string, submittedBy: string, submittedAt: int)

  /** How many leading words of the name are used as search terms. */
  const MaxSearchTerms := 3
  /** A search term must be longer than this to count. */
  const MinTermLength := 3

  function Summary(row: StoreRow): ExistingProduct {
    ExistingProduct(row.id, row.name, row.submittedBy, row.submittedAt)
  }

  /** The verdict for no duplicate: {isDuplicate: false, type: null, existingProduct: null}. */
  const NoDuplicate := DuplicateCheckResult(false, None, None)

  /** The index of the first element satisfying `p` (findFirst / Array.find). */
  function FindFirst<T>(s: seq<T>, p: T -> bool): (k: Option<nat>)
    ensures k.Some? ==> k.value < |s| && p(s[k.value]) && forall j :: 0 <= j < k.value ==> !p(s[j])
    ensures k.None? ==> forall j :: 0 <= j < |s| ==> !p(s[j])
  {
    if s == [] then None
    else if p(s[0]) then Some(0)
    else match FindFirst(s[1..], p)
      case None => None
      case Some(i) => Some(i + 1)
  }

  /** The lower-cased name split on single spaces, first three pieces at most. */
  function SearchTerms(name: string): (terms: seq<string>)
    ensures 1 <= |terms| <= MaxSearchTerms
  {
    var pieces := Split(Lower(name), ' ');
    if |pieces| <= MaxSearchTerms then pieces else pieces[..MaxSearchTerms]
  }

  /** Some term longer than three characters occurs in the row's lower-cased name. */
  predicate SharesTerm(row: StoreRow, terms: seq<string>) {
    exists term :: term in terms && Contains(Lower(row.name), term) && |term| > MinTermLength
  }

  /** checkDuplicate(url, name) against the table `store`. */
  function CheckDuplicate(url: string, name: string, store: Option<seq<StoreRow>>): (r: DuplicateCheckResult)
    ensures r.isDuplicate <==> r.kind == Some(Exact)
    ensures r.kind.None? <==> r.existingProduct.None?
    ensures store.None? ==> r == NoDuplicate
  {
    match store
    case None => NoDuplicate
    case Some(rows) =>
      match FindFirst(rows, (row: StoreRow) => row.cjUrl == url)
      case Some(i) => DuplicateCheckResult(true, Some(Exact), Some(Summary(rows[i])))
      case None =>
        var terms := SearchTerms(name);
        match FindFirst(rows, (row: StoreRow) => SharesTerm(row, terms))
        case Some(i) => DuplicateCheckResult(false, Some(Similar), Some(Summary(rows[i])))
        case None => NoDuplicate
  }

  /**
   * An exact URL match wins: the verdict is exact, names the first row with
   * that URL, and does not depend on the name at all.
   */
  lemma ExactMatchShortCircuits(url: string, name: string, otherName: string, rows: seq<StoreRow>, k: nat)
    requires k < |rows| && rows[k].cjUrl == url
    requires forall j :: 0 <= j < k ==> rows[j].cjUrl != url
    ensures CheckDuplicate(url, name, Some(rows)) == DuplicateCheckResult(true, Some(Exact), Some(Summary(rows[k])))
    ensures CheckDuplicate(url, name, Some(rows)) == CheckDuplicate(url, otherName, Some(rows))
  {
    var isUrl := (row: StoreRow) => row.cjUrl == url;
    assert isUrl(rows[k]);
  }

  /**
   * Without an URL match, the verdict is similar exactly when some row shares
   * a search term, it names the first such row, and it is not a duplicate;
   * with no sharing row it is the no-duplicate verdict.
   */
  lemma SimilarIsFirstSharingRow(url: string, name: string, rows: seq<StoreRow>)
    requires forall j :: 0 <= j < |rows| ==> rows[j].cjUrl != url
    ensures var r := CheckDuplicate(url, name, Some(rows));
      && (r.kind == Some(Similar) <==> exists j :: 0 <= j < |rows| && SharesTerm(rows[j], SearchTerms(name)))
      && (r.kind == Some(Similar) ==> !r.isDuplicate && exists k ::
            && 0 <= k < |rows| && SharesTerm(rows[k], SearchTerms(name))
            && r.existingProduct == Some(Summary(rows[k]))
            && forall j :: 0 <= j < k ==> !SharesTerm(rows[j], SearchTerms(name)))
      && (r.kind != Some(Similar) ==> r == NoDuplicate)
  {
    var isUrl := (row: StoreRow) => row.cjUrl == url;
    assert FindFirst(rows, isUrl).None?;
    var terms := SearchTerms(name);
    var shares := (row: StoreRow) => SharesTerm(row, terms);
    var similar := FindFirst(rows, shares);
    if similar.Some? {
      assert SharesTerm(rows[similar.value], terms);
    }
    if exists j :: 0 <= j < |rows| && SharesTerm(rows[j], terms) {
      var j :| 0 <= j < |rows| && SharesTerm(rows[j], terms);
      assert shares(rows[j]);
    }
  }

  /** Terms of at most three characters never make a row similar. */
  lemma ShortTermsNeverMatch(url: string, name: string, store: Option<seq<StoreRow>>)
    requires forall term :: term in SearchTerms(name) ==> |term| <= MinTermLength
    ensures CheckDuplicate(url, name, store).kind != Some(Similar)
  {
    if store.Some? {
      var rows := store.value;
      var terms := SearchTerms(name);
      var shares := (row: StoreRow) => SharesTerm(row, terms);
      assert FindFirst(rows, shares).None?;
    }
  }

  /** Once the name has three pieces, whatever follows a further space is ignored. */
  lemma TermsIgnoreTail(name: string, tail: string)
    requires |Split(Lower(name), ' ')| >= MaxSearchTerms
    ensures SearchTerms(name + " " + tail) == SearchTerms(name)
  {
    LowerAppend(name + " ", tail);
    LowerAppend(name, " ");
    assert Lower(" ") == " ";
    SplitAtSeparator(Lower(name), Lower(tail), ' ');
    var a := Split(Lower(name), ' ');
    var b := Split(Lower(tail), ' ');
    assert (a + b)[..MaxSearchTerms] == a[..MaxSearchTerms];
  }

  /** A word after the third of the name never changes the verdict. */
  lemma TailNeverMatters(url: string, name: string, tail: string, store: Option<seq<StoreRow>>)
    requires |Split(Lower(name), ' ')| >= MaxSearchTerms
    ensures CheckDuplicate(url, name + " " + tail, store) == CheckDuplicate(url, name, store)
  {
    TermsIgnoreTail(name, tail);
  }

  lemma LowerCeramic()
    ensures Lower("Ceramic") == "ceramic"
  {
    var r := Lower("Ceramic");
    assert r[0] == 'c';
  }

  lemma LowerDiffuser()
    ensures Lower("Diffuser") == "diffuser"
  {
    var r := Lower("Diffuser");
    assert r[0] == 'd';
  }

  /** A two-word name yields its two lower-cased words as terms. */
  lemma TwoWordTerms(a: string, b: string)
    requires ' ' !in Lower(a) && ' ' !in Lower(b)
    ensures SearchTerms(a + " " + b) == [Lower(a), Lower(b)]
  {
    LowerAppend(a + " ", b);
    LowerAppend(a, " ");
    assert Lower(" ") == " ";
    SplitAtSeparator(Lower(a), Lower(b), ' ');
    SplitWithoutSeparator(Lower(a), ' ');
    SplitWithoutSeparator(Lower(b), ' ');
  }

  /** A single stored row at another URL that shares a term is reported as similar. */
  lemma OneSharingRow(url: string, name: string, stored: StoreRow)
    requires stored.cjUrl != url && SharesTerm(stored, SearchTerms(name))
    ensures CheckDuplicate(url, name, Some([stored])) == DuplicateCheckResult(false, Some(Similar), Some(Summary(stored)))
  {
    SimilarIsFirstSharingRow(url, name, [stored]);
  }

  /** The stored name "Ceramic Candle Diffuser Set" starts with the lower-cased "ceramic". */
  lemma CeramicPrefix()
    ensures "ceramic" <= Lower("Ceramic Candle Diffuser Set")
  {
    assert "Ceramic Candle Diffuser Set" == "Ceramic" + " Candle Diffuser Set";
    LowerAppend("Ceramic", " Candle Diffuser Set");
    LowerCeramic();
  }

  /** "Ceramic Diffuser" is similar to a stored "Ceramic Candle Diffuser Set" at another URL. */
  lemma CeramicDiffuserExample()
    ensures var stored := StoreRow("p1", "https://cjdropshipping.com/a", "Ceramic Candle Diffuser Set", "dara", 0);
      CheckDuplicate("https://cjdropshipping.com/b", "Ceramic Diffuser", Some([stored]))
        == DuplicateCheckResult(false, Some(Similar), Some(Summary(stored)))
  {
    var stored := StoreRow("p1", "https://cjdropshipping.com/a", "Ceramic Candle Diffuser Set", "dara", 0);
    LowerCeramic();
    LowerDiffuser();
    TwoWordTerms("Ceramic", "Diffuser");
    assert "Ceramic Diffuser" == "Ceramic" + " " + "Diffuser";
    CeramicPrefix();
    assert "ceramic" in SearchTerms("Ceramic Diffuser");
    assert Contains(Lower(stored.name), "ceramic");
    OneSharingRow("https://cjdropshipping.com/b", "Ceramic Diffuser", stored);
  }
}
