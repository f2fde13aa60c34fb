/**
 * The language context (context/language-context.js): the current locale, the switch
 * between English and Russian, the adoption of a saved locale on mount, and `t`, the
 * dotted-key translation lookup with its English fallback.
 */
module Language {
  import opened Wrappers
  import opened JsStrings
  import opened Translations

  /** `tables[name]`, absent when the table has no such key. */
  function Get(tables: map<string, Entry>, name: string): Option<Entry> {
    if name in tables then Some(tables[name]) else None
  }

  /**
   * One step of the walk, `value && value[k] !== undefined ? value[k] : failure`: only a
   * table holding the key moves on.
   */
  function Step(value: Option<Entry>, k: string): (r: Option<Entry>)
    ensures r.Some? <==> value.Some? && value.value.Table? && k in value.value.entries
  {
    if value.Some? && value.value.Table? && k in value.value.entries
    then Some(value.value.entries[k]) else None
  }

  /** The entry reached by following `keys` from `start`, or `None` when some step fails. */
  function Resolve(start: Option<Entry>, keys: seq<string>): Option<Entry>
  {
    if keys == [] then start else Step(Resolve(start, keys[..|keys| - 1]), keys[|keys| - 1])
  }

  /** What `t(key)` returns with `locale` current. */
  function Lookup(tables: map<string, Entry>, locale: string, key: string): Entry {
    var keys := Split(key, '.');
    match Resolve(Get(tables, locale), keys)
    case Some(v) => v
    case None =>
      match Resolve(Get(tables, "en"), keys)
      case Some(v) => v
      case None => Text(key)
  }

  /** Once a step fails, the walk stays failed. */
  lemma {:induction false} ResolveFailureSticks(start: Option<Entry>, keys: seq<string>, i: nat)
    requires i <= |keys| && Resolve(start, keys[..i]) == None
    ensures Resolve(start, keys) == None
  {
    if i < |keys| {
      var init := keys[..|keys| - 1];
      assert init[..i] == keys[..i];
      ResolveFailureSticks(start, init, i);
    } else {
      assert keys[..i] == keys;
    }
  }

  /** A one-segment walk is one step. */
  lemma ResolveSingle(start: Option<Entry>, k: string)
    ensures Resolve(start, [k]) == Step(start, k)
  {
    assert [k][..0] == [];
  }

  /** Following `a + b` is following `a`, then `b`. */
  lemma {:induction false} ResolveAppend(start: Option<Entry>, a: seq<string>, b: seq<string>)
    ensures Resolve(start, a + b) == Resolve(Resolve(start, a), b)
  {
    if b == [] {
      assert a + b == a;
    } else {
      var b' := b[..|b| - 1];
      ResolveAppend(start, a, b');
      assert (a + b)[..|a + b| - 1] == a + b';
    }
  }

  /**
   * `t(key)`: walks the dotted segments through the current table; at the first failing
   * segment it walks the English table instead, and returns the key itself when that
   * fails too.
   */
  method Translate(tables: map<string, Entry>, locale: string, key: string) returns (r: Entry)
    ensures r == Lookup(tables, locale, key)
    ensures Resolve(Get(tables, locale), Split(key, '.')).Some? ==>
              r == Resolve(Get(tables, locale), Split(key, '.')).value
    ensures (Resolve(Get(tables, locale), Split(key, '.')).None?
             && Resolve(Get(tables, "en"), Split(key, '.')).Some?) ==>
              r == Resolve(Get(tables, "en"), Split(key, '.')).value
    ensures (Resolve(Get(tables, locale), Split(key, '.')).None?
             && Resolve(Get(tables, "en"), Split(key, '.')).None?) ==> r == Text(key)
  {
    var keys := Split(key, '.');
    var value := Get(tables, locale);
    for i := 0 to |keys|
      invariant (i > 0 ==> value.Some?) && value == Resolve(Get(tables, locale), keys[..i])
    {
      assert keys[..i + 1][..i] == keys[..i];
      if value.Some? && value.value.Table? && keys[i] in value.value.entries {
        value := Some(value.value.entries[keys[i]]);
      } else {
        ResolveFailureSticks(Get(tables, locale), keys, i + 1);
        r := EnglishFallback(tables, keys, key);
        return;
      }
    }
    assert keys[..|keys|] == keys;
    return value.value;
  }

  /** The inner walk of `t` through the English table: the entry reached, or the key itself. */
  method EnglishFallback(tables: map<string, Entry>, keys: seq<string>, key: string) returns (r: Entry)
    requires |keys| >= 1
    ensures Resolve(Get(tables, "en"), keys).Some? ==> r == Resolve(Get(tables, "en"), keys).value
    ensures Resolve(Get(tables, "en"), keys).None? ==> r == Text(key)
  {
    var enValue := Get(tables, "en");
    for j := 0 to |keys|
      invariant (j > 0 ==> enValue.Some?) && enValue == Resolve(Get(tables, "en"), keys[..j])
    {
      assert keys[..j + 1][..j] == keys[..j];
      if enValue.Some? && enValue.value.Table? && keys[j] in enValue.value.entries {
        enValue := Some(enValue.value.entries[keys[j]]);
      } else {
        ResolveFailureSticks(Get(tables, "en"), keys, j + 1);
        return Text(key);
      }
    }
    assert keys[..|keys|] == keys;
    return enValue.value;
  }

  /** A table whose entries are all texts, like both tables of the site. */
  predicate Flat(entry: Entry) {
    entry.Table? && forall k :: k in entry.entries ==> entry.entries[k].Text?
  }

  /** With flat tables a dotted key never resolves, so `t` gives back the key itself. */
  lemma DottedKeyIsItsOwnTranslation(tables: map<string, Entry>, locale: string, key: string)
    requires locale in tables && Flat(tables[locale]) && "en" in tables && Flat(tables["en"])
    requires '.' in key
    ensures Lookup(tables, locale, key) == Text(key)
  {
    var keys := Split(key, '.');
    JoinSplit(key, '.');
    assert |keys| >= 2;
    FlatTwoSteps(tables[locale], keys);
    FlatTwoSteps(tables["en"], keys);
  }

  /** In a flat table a walk of two or more segments fails. */
  lemma FlatTwoSteps(table: Entry, keys: seq<string>)
    requires Flat(table) && |keys| >= 2
    ensures Resolve(Some(table), keys) == None
  {
    assert keys[..2][..1] == keys[..1] == [keys[0]];
    ResolveSingle(Some(table), keys[0]);
    var first := Resolve(Some(table), keys[..1]);
    assert first.None? || first.value.Text?;
    assert Resolve(Some(table), keys[..2]) == Step(first, keys[1]);
    ResolveFailureSticks(Some(table), keys, 2);
  }

  /** The site's two tables are flat and hold the same keys, so nothing falls back to English. */
  lemma SiteTablesAgreeOnKeys()
    ensures Flat(Tables["en"]) && Flat(Tables["ru"])
    ensures English.Keys == Russian.Keys
  {
    EnglishFlat();
    RussianFlat();
    SameKeys();
    assert Tables["en"] == Table(English) && Tables["ru"] == Table(Russian);
  }

  lemma EnglishFlat()
    ensures Flat(Table(English))
  {
  }

  lemma RussianFlat()
    ensures Flat(Table(Russian))
  {
  }

  lemma SameKeys()
    ensures English.Keys == Russian.Keys
  {
  }

  /** The Russian table answers exactly the keys the English table answers. */
  lemma RussianNeedsNoFallback(key: string)
    ensures Resolve(Get(Tables, "ru"), Split(key, '.')).Some? <==>
            Resolve(Get(Tables, "en"), Split(key, '.')).Some?
  {
    SiteTablesAgreeOnKeys();
    var keys := Split(key, '.');
    if |keys| >= 2 {
      FlatTwoSteps(Tables["ru"], keys);
      FlatTwoSteps(Tables["en"], keys);
    } else {
      assert keys == [keys[0]] && keys[..0] == [];
    }
  }

  /** `toggleLanguage`: "en" becomes "ru", anything else "en". */
  function ToggleLanguage(prev: string): (next: string)
    ensures next in Locales
    ensures prev in Locales ==> next != prev
    ensures prev != "en" ==> next == "en"
  {
    if prev == "en" then "ru" else "en"
  }

  /** Toggling twice restores a supported locale. */
  lemma ToggleTwice(locale: string)
    requires locale in Locales
    ensures ToggleLanguage(ToggleLanguage(locale)) == locale
  {
  }

  /** The mount effect: a saved locale is adopted only when it is truthy and a key of `locales`. */
  function AdoptSavedLocale(saved: Option<string>, current: string): (r: string)
    ensures saved.Some? && saved.value in Locales ==> r == saved.value
    ensures !(saved.Some? && saved.value in Locales) ==> r == current
  {
    if saved.Some? && saved.value != "" && saved.value in Locales then saved.value else current
  }

  /** The provider's state: the current locale. */
  class LanguageProvider {
    var locale: string

    predicate Valid()
      reads this
    {
      locale in Locales
    }

    /** The first render: the default locale. */
    constructor()
      ensures Valid() && locale == DefaultLocale
    {
      locale := DefaultLocale;
    }

    /** The mount effect, given what the browser storage holds under "locale". */
    method Mount(saved: Option<string>)
      requires Valid()
      modifies this
      ensures Valid()
      ensures locale == AdoptSavedLocale(saved, old(locale))
    {
      if saved.Some? && saved.value != "" && saved.value in Locales {
        locale := saved.value;
      }
    }

    method Toggle()
      requires Valid()
      modifies this
      ensures Valid()
      ensures locale == ToggleLanguage(old(locale)) && locale != old(locale)
    {
      locale := ToggleLanguage(locale);
    }

    /** `t(key)` over the site's tables. */
    method T(key: string) returns (r: Entry)
      ensures r == Lookup(Tables, locale, key)
    {
      r := Translate(Tables, locale, key);
    }
  }

  /** A key without dots that the current locale's table holds as a text translates to that text. */
  lemma PlainKeyLookup(tables: map<string, Entry>, locale: string, key: string, entries: map<string, Entry>)
    requires '.' !in key
    requires Get(tables, locale) == Some(Table(entries)) && key in entries && entries[key].Text?
    ensures Lookup(tables, locale, key) == entries[key]
  {
    SplitOfSeparatorFree(key, '.');
    ResolveSingle(Some(Table(entries)), key);
  }

  /** A key without dots that neither the current locale's table nor the English one holds comes back as itself. */
  lemma AbsentKeyLookup(tables: map<string, Entry>, locale: string, key: string,
                        current: map<string, Entry>, english: map<string, Entry>)
    requires '.' !in key
    requires Get(tables, locale) == Some(Table(current)) && key !in current
    requires Get(tables, "en") == Some(Table(english)) && key !in english
    ensures Lookup(tables, locale, key) == Text(key)
  {
    SplitOfSeparatorFree(key, '.');
    ResolveSingle(Some(Table(current)), key);
    ResolveSingle(Some(Table(english)), key);
  }

  lemma SiteTables()
    ensures Get(Tables, "en") == Some(Table(English)) && Get(Tables, "ru") == Some(Table(Russian))
  {
  }

  lemma RussianHomeEntry()
    ensures "home" in Russian && Russian["home"] == Text("Главная")
  {
  }

  /** The navigation label in Russian. */
  lemma RussianHome()
    ensures Lookup(Tables, "ru", "home") == Text("Главная")
  {
    SiteTables();
    RussianHomeEntry();
    PlainKeyLookup(Tables, "ru", "home", Russian);
  }

  lemma EnglishLacksFeaturedTitle()
    ensures "featuredTitle" !in English
  {
  }

  /** A key the tables lack comes back unchanged. */
  lemma MissingKeyIsItsOwnTranslation()
    ensures Lookup(Tables, "en", "featuredTitle") == Text("featuredTitle")
  {
    SiteTables();
    EnglishLacksFeaturedTitle();
    AbsentKeyLookup(Tables, "en", "featuredTitle", English, English);
  }

  /** The sort-option keys the post list asks for are not in the tables. */
  lemma SortOptionKeyIsItsOwnTranslation()
    ensures Lookup(Tables, "ru", "sortOptions.newest") == Text("sortOptions.newest")
  {
    SiteTablesAgreeOnKeys();
    DottedKeyIsItsOwnTranslation(Tables, "ru", "sortOptions.newest");
  }
}
