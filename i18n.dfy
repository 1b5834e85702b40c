// The translation lookup of the frontend: a dotted key walked through the
// nested table of the chosen locale, falling back to the French table and
// finally to the key itself.

module I18n {
  import opened Common
  import opened Text

  /** A node of a translation table: a phrase, or a group of named nodes. */
  datatype Entry = Phrase(text: string) | Group(entries: map<string, Entry>)

  /** The two bundled tables. */
  datatype Translations = Translations(fr: Entry, ar: Entry)

  const DefaultLocale: string := "fr"

  /** `translations[locale] || translations[defaultLocale]`: the Arabic
      table for "ar", the French one for "fr" and for any other locale. */
  function TableFor(t: Translations, locale: string): (e: Entry)
    ensures locale == "ar" ==> e == t.ar
    ensures locale != "ar" ==> e == t.fr
  {
    if locale == "ar" then t.ar else t.fr
  }

  /** One step of the walk: a segment resolves only inside a group that
      contains it. */
  function Step(e: Entry, k: string): (r: Option<Entry>)
    ensures r.Some? <==> e.Group? && k in e.entries
  {
    if e.Group? && k in e.entries then Some(e.entries[k]) else None
  }

  /** The node reached from `e` by following `keys`, if every segment
      resolves. */
  function Walk(e: Entry, keys: seq<string>): Option<Entry>
    decreases |keys|
  {
    if |keys| == 0 then Some(e)
    else match Step(e, keys[0])
      case None => None
      case Some(next) => Walk(next, keys[1..])
  }

  /** Walking a concatenated path is walking the first part, then the second
      from where the first ended. */
  lemma {:induction false} WalkConcat(e: Entry, a: seq<string>, b: seq<string>)
    ensures Walk(e, a + b) == (match Walk(e, a) case None => None case Some(x) => Walk(x, b))
    decreases |a|
  {
    if |a| > 0 {
      assert (a + b)[0] == a[0];
      assert (a + b)[1..] == a[1..] + b;
      match Step(e, a[0])
      case None =>
      case Some(next) => WalkConcat(next, a[1..], b);
    } else {
      assert a + b == b;
    }
  }

  /** The walk extended by one segment. */
  lemma WalkSnoc(e: Entry, a: seq<string>, k: string)
    ensures Walk(e, a + [k]) == (match Walk(e, a) case None => None case Some(x) => Step(x, k))
  {
    WalkConcat(e, a, [k]);
    match Walk(e, a)
    case None =>
    case Some(x) =>
      assert Walk(x, [k]) == (match Step(x, k) case None => None case Some(n) => Walk(n, []));
  }

  /** getTranslation: the node the key names in the locale's table; failing
      that, in the French table; failing that, the key itself. */
  function Translation(t: Translations, locale: string, key: string): Entry
  {
    var keys := Split(key, '.');
    match Walk(TableFor(t, locale), keys)
    case Some(v) => v
    case None =>
      match Walk(t.fr, keys)
      case Some(v) => v
      case None => Phrase(key)
  }

  /** getTranslation: the walk over the key's segments, restarting from the
      French table at the first segment that does not resolve, and giving
      up with the key at the first French segment that does not. */
  method GetTranslation(t: Translations, locale: string, key: string) returns (r: Entry)
    ensures r == Translation(t, locale, key)
  {
    var keys := Split(key, '.');
    var start := TableFor(t, locale);
    r := start;
    var i := 0;
    while i < |keys|
      invariant 0 <= i <= |keys|
      invariant Walk(start, keys[..i]) == Some(r)
    {
      WalkSnoc(start, keys[..i], keys[i]);
      assert keys[..i + 1] == keys[..i] + [keys[i]];
      if r.Group? && keys[i] in r.entries {
        r := r.entries[keys[i]];
        i := i + 1;
      } else {
        WalkConcat(start, keys[..i + 1], keys[i + 1..]);
        assert keys[..i + 1] + keys[i + 1..] == keys;
        r := t.fr;
        var j := 0;
        while j < |keys|
          invariant 0 <= j <= |keys|
          invariant Walk(t.fr, keys[..j]) == Some(r)
        {
          WalkSnoc(t.fr, keys[..j], keys[j]);
          assert keys[..j + 1] == keys[..j] + [keys[j]];
          if r.Group? && keys[j] in r.entries {
            r := r.entries[keys[j]];
            j := j + 1;
          } else {
            WalkConcat(t.fr, keys[..j + 1], keys[j + 1..]);
            assert keys[..j + 1] + keys[j + 1..] == keys;
            return Phrase(key);
          }
        }
        assert keys[..j] == keys;
        return r;
      }
    }
    assert keys[..i] == keys;
  }

  /** Any locale other than "ar" reads the French table. */
  lemma UnknownLocaleIsFrench(t: Translations, locale: string, key: string)
    requires locale != "ar"
    ensures Translation(t, locale, key) == Translation(t, DefaultLocale, key)
  {
  }

  /** A key made of dot-free segments names the node at that path: found in
      the locale's table it is returned, missing there but present in the
      French table the French node is returned, missing in both the key
      comes back. */
  lemma DottedPath(t: Translations, locale: string, path: seq<string>)
    requires |path| >= 1
    requires forall i, j :: 0 <= i < |path| && 0 <= j < |path[i]| ==> path[i][j] != '.'
    ensures Walk(TableFor(t, locale), path).Some? ==>
      Translation(t, locale, Join(path, ".")) == Walk(TableFor(t, locale), path).value
    ensures Walk(TableFor(t, locale), path).None? && Walk(t.fr, path).Some? ==>
      Translation(t, locale, Join(path, ".")) == Walk(t.fr, path).value
    ensures Walk(TableFor(t, locale), path).None? && Walk(t.fr, path).None? ==>
      Translation(t, locale, Join(path, ".")) == Phrase(Join(path, "."))
  {
    SplitJoin(path, '.');
  }
}
