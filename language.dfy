/**
 * The language provider (components/LanguageToggle.tsx): the stored-language
 * snapshot, the English/Khmer toggle, setLanguage and the translation lookup
 * `t`, which walks a dotted key through a tree of string tables.
 */
module Language {
  import opened Wrappers
  import opened Strings

  datatype Lang = En | Kh

  /** The text a language is stored under: 'en' or 'kh'. */
  function Code(lang: Lang): string {
    if lang == En then "en" else "kh"
  }

  /**
   * The client snapshot: the stored language when it reads 'en' or 'kh',
   * Khmer otherwise and Khmer when there is no window.
   */
  function GetSnapshot(hasWindow: bool, saved: Option<string>): (lang: Lang)
    ensures lang == En <==> hasWindow && saved == Some("en")
  {
    if !hasWindow then Kh
    else if saved == Some("en") then En
    else if saved == Some("kh") then Kh
    else Kh
  }

  /** The server snapshot: what the client snapshot gives without a window, whatever is stored. */
  function GetServerSnapshot(): (lang: Lang)
    ensures forall saved :: lang == GetSnapshot(false, saved)
  {
    Kh
  }

  /** The snapshot reads back whatever language was stored. */
  lemma SnapshotReadsStoredCode(lang: Lang)
    ensures GetSnapshot(true, Some(Code(lang))) == lang
  {
  }

  /** The toggle button: English to Khmer, Khmer to English; it always changes the stored code. */
  function Flip(lang: Lang): (flipped: Lang)
    ensures flipped != lang && Code(flipped) != Code(lang)
  {
    if lang == En then Kh else En
  }

  /** Two presses of the toggle restore the language. */
  lemma FlipInvolution(lang: Lang)
    ensures Flip(Flip(lang)) == lang
  {
  }

  /** A translation table entry: a string, or a nested table. */
  datatype Entry = Text(text: string) | Table(entries: map<string, Entry>)

  /**
   * The entry reached from `e` along `path`, if every step finds a table
   * holding the next segment: the empty path stays at `e`, and a walk that
   * takes a step starts from a table.
   */
  function Lookup(e: Entry, path: seq<string>): (found: Option<Entry>)
    ensures path == [] ==> found == Some(e)
    ensures path != [] && found.Some? ==> e.Table? && path[0] in e.entries
    decreases |path|
  {
    if path == [] then Some(e)
    else match e
      case Text(_) => None
      case Table(m) => if path[0] in m then Lookup(m[path[0]], path[1..]) else None
  }

  /** Walking a path in two legs is walking the first leg, then the second from where it ended. */
  lemma {:induction false} LookupAppend(e: Entry, p: seq<string>, q: seq<string>)
    ensures Lookup(e, p + q) == match Lookup(e, p)
      case None => None
      case Some(mid) => Lookup(mid, q)
    decreases |p|
  {
    if p == [] {
      assert p + q == q;
    } else {
      assert (p + q)[0] == p[0] && (p + q)[1..] == p[1..] + q;
      if e.Table? && p[0] in e.entries {
        LookupAppend(e.entries[p[0]], p[1..], q);
      }
    }
  }

  /** A string reached before the last segment ends the walk: nothing lies below a string. */
  lemma TextStopsTheWalk(e: Entry, p: seq<string>, q: seq<string>, s: string)
    requires Lookup(e, p) == Some(Text(s)) && q != []
    ensures Lookup(e, p + q) == None
  {
    LookupAppend(e, p, q);
  }

  /** The text a lookup ends on, or the key itself when it ends elsewhere. */
  function TextOrKey(found: Option<Entry>, key: string): string {
    match found
    case Some(Text(s)) => s
    case _ => key
  }

  /**
   * t(key) against the table `root`: a dotted key is walked segment by
   * segment; any other key is looked up at the top level. Either way t never
   * fails: it returns the key itself or the string its path reaches.
   */
  function Resolve(root: map<string, Entry>, key: string): (text: string)
    ensures text == key || Lookup(Table(root), Split(key, '.')) == Some(Text(text))
  {
    if '.' in key then TextOrKey(Lookup(Table(root), Split(key, '.')), key)
    else if key in root && root[key].Text? then
      SplitWithoutSeparator(key, '.');
      assert Split(key, '.')[1..] == [];
      root[key].text
    else key
  }

  /**
   * Both branches of t are one rule: the string the key's dot-separated path
   * reaches, or the key itself when the path is missing, runs into a string
   * early or ends on a nested table.
   */
  lemma ResolveIsPathLookup(root: map<string, Entry>, key: string)
    ensures Resolve(root, key) == TextOrKey(Lookup(Table(root), Split(key, '.')), key)
  {
    if '.' !in key {
      SplitWithoutSeparator(key, '.');
      assert Split(key, '.')[1..] == [];
    }
  }

  /**
   * A dotted key whose leading segments already reach a string translates
   * to the key itself, whatever the string says.
   */
  lemma KeyBelowTextIsUntranslated(root: map<string, Entry>, key: string, p: seq<string>, q: seq<string>, s: string)
    requires Split(key, '.') == p + q && q != []
    requires Lookup(Table(root), p) == Some(Text(s))
    ensures Resolve(root, key) == key
  {
    TextStopsTheWalk(Table(root), p, q, s);
    ResolveIsPathLookup(root, key);
  }

  /** The provider: two fixed tables, the current language and the stored-language slot. */
  class LanguageProvider {
    const en: map<string, Entry>
    const kh: map<string, Entry>
    const hasWindow: bool
    var language: Lang
    var saved: Option<string>

    /**
     * The provider is mounted by the root layout while the page hydrates, so
     * the external store hands its first render the server snapshot and the
     * language state starts in Khmer whatever is stored: a stored English
     * preference is kept in storage but not restored on load.
     */
    constructor (en: map<string, Entry>, kh: map<string, Entry>, hasWindow: bool, saved: Option<string>)
      ensures this.en == en && this.kh == kh && this.hasWindow == hasWindow
      ensures language == GetServerSnapshot() && this.saved == saved
      ensures hasWindow && saved == Some(Code(En)) ==> language != GetSnapshot(hasWindow, saved)
    {
      this.en := en;
      this.kh := kh;
      this.hasWindow := hasWindow;
      this.language := GetServerSnapshot();
      this.saved := saved;
    }

    /** The table of the current language: the English table exactly when the language is English. */
    function Translations(): (table: map<string, Entry>)
      reads this
      ensures language == En ==> table == en
      ensures language == Kh ==> table == kh
    {
      if language == En then en else kh
    }

    /** setLanguage: switch the current language and store it when there is a window. */
    method SetLanguage(lang: Lang)
      modifies this
      ensures language == lang
      ensures saved == if hasWindow then Some(Code(lang)) else old(saved)
      ensures Translations() == if lang == En then en else kh
      ensures hasWindow ==> GetSnapshot(hasWindow, saved) == lang
    {
      language := lang;
      if hasWindow {
        saved := Some(Code(lang));
        SnapshotReadsStoredCode(lang);
      }
    }

    /** The toggle button. */
    method Toggle()
      modifies this
      ensures language == Flip(old(language)) && language != old(language)
      ensures saved == if hasWindow then Some(Code(language)) else old(saved)
    {
      SetLanguage(Flip(language));
    }

    /** t: translate `key` with the current language's table. */
    method T(key: string) returns (s: string)
      ensures s == Resolve(Translations(), key)
    {
      var table := Translations();
      if '.' in key {
        var parts := Split(key, '.');
        var current := Table(table);
        for i := 0 to |parts|
          invariant Lookup(Table(table), parts[..i]) == Some(current)
        {
          LookupAppend(Table(table), parts[..i], parts[i..]);
          assert parts[..i] + parts[i..] == parts;
          if current.Text? || parts[i] !in current.entries {
            return key;
          }
          LookupAppend(Table(table), parts[..i], [parts[i]]);
          assert parts[..i + 1] == parts[..i] + [parts[i]];
          current := current.entries[parts[i]];
        }
        assert parts[..|parts|] == parts;
        if current.Text? {
          return current.text;
        }
        return key;
      }
      if key in table && table[key].Text? {
        return table[key].text;
      }
      return key;
    }
  }
}
