/**
 * The translation lookup `t(key)` of the client's i18n composable: a dotted
 * key is followed segment by segment through the active locale's nested
 * string table; if a segment is missing there, the whole key is followed
 * again through the Uzbek table; an absent or empty result yields the key
 * itself.
 */
module Translation {
  import opened Wrappers
  import opened Strings

  /** A node of a locale file: a string, or a table of named children. */
  datatype Entry = Text(text: string) | Table(children: map<string, Entry>)

  /** The loaded locale files, by locale code (`uz`, `ru`, `en`). */
  type Catalog = map<string, Entry>

  /** The locale consulted when the active one lacks a key. */
  const FallbackLocale := "uz"

  /** JavaScript truthiness of a looked-up value: a table, or a non-empty string. */
  predicate Truthy(v: Option<Entry>)
  {
    v.Some? && (v.value.Table? || v.value.text != "")
  }

  /** The entry reached by following `path` down from `e`; `None` once a key is missing. */
  function Descend(e: Entry, path: seq<string>): Option<Entry>
  {
    if path == [] then Some(e)
    else match e
      case Text(_) => None
      case Table(children) =>
        if path[0] in children then Descend(children[path[0]], path[1..]) else None
  }

  /** The entry at `path` in the file of `locale`; `None` when there is no such file or entry. */
  function Resolve(catalog: Catalog, locale: string, path: seq<string>): Option<Entry>
  {
    if locale in catalog then Descend(catalog[locale], path) else None
  }

  /** What `t(key)` returns with `locale` active. */
  function Translate(catalog: Catalog, locale: string, key: string): (r: Entry)
    ensures r == Text(key) || (Truthy(Some(r)) &&
      (Resolve(catalog, locale, Split(key, '.')) == Some(r) || Resolve(catalog, FallbackLocale, Split(key, '.')) == Some(r)))
  {
    var path := Split(key, '.');
    var found := Resolve(catalog, locale, path);
    var value := if found.Some? then found else Resolve(catalog, FallbackLocale, path);
    if Truthy(value) then value.value else Text(key)
  }

  /** One step `value = value?.[k]`: a missing key, a string or `undefined` all give `undefined`. */
  function Step(v: Option<Entry>, k: string): Option<Entry>
  {
    match v
    case Some(Table(children)) => if k in children then Some(children[k]) else None
    case _ => None
  }

  /** The value after the steps for `keys`, taken left to right as the loop does. */
  function Walk(v: Option<Entry>, keys: seq<string>): Option<Entry>
  {
    if keys == [] then v else Step(Walk(v, keys[..|keys| - 1]), keys[|keys| - 1])
  }

  lemma {:induction false} WalkFromNone(keys: seq<string>)
    ensures Walk(None, keys) == None
  {
    if keys != [] {
      WalkFromNone(keys[..|keys| - 1]);
    }
  }

  lemma {:induction false} WalkPrefixNone(v: Option<Entry>, keys: seq<string>, i: nat)
    requires i <= |keys| && Walk(v, keys[..i]) == None
    ensures Walk(v, keys) == None
    decreases |keys| - i
  {
    if i < |keys| {
      assert keys[..i + 1][..i] == keys[..i];
      WalkPrefixNone(v, keys, i + 1);
    } else {
      assert keys[..i] == keys;
    }
  }

  lemma {:induction false} WalkCons(v: Option<Entry>, k: string, rest: seq<string>)
    ensures Walk(v, [k] + rest) == Walk(Step(v, k), rest)
    decreases |rest|
  {
    if rest != [] {
      var s := [k] + rest;
      assert s[..|s| - 1] == [k] + rest[..|rest| - 1];
      WalkCons(v, k, rest[..|rest| - 1]);
    } else {
      assert [k] + rest == [k] && [k][..0] == [];
    }
  }

  /** The loop's left-to-right walk from a file's root finds the entry at the path. */
  lemma {:induction false} WalkIsDescend(e: Entry, path: seq<string>)
    ensures Walk(Some(e), path) == Descend(e, path)
    decreases |path|
  {
    if path != [] {
      assert [path[0]] + path[1..] == path;
      WalkCons(Some(e), path[0], path[1..]);
      var next := Step(Some(e), path[0]);
      if next.Some? {
        WalkIsDescend(next.value, path[1..]);
      } else {
        WalkFromNone(path[1..]);
      }
    }
  }

  /**
   * `t(key)`: split the key on dots, step through the active locale, and on
   * the first missing segment redo the whole walk in the Uzbek file.
   * Total: every step is an optional access, so nothing can fail.
   */
  method T(catalog: Catalog, locale: string, key: string) returns (r: Entry)
    ensures r == Translate(catalog, locale, key)
  {
    var keys := Split(key, '.');
    var value := if locale in catalog then Some(catalog[locale]) else None;
    ghost var start := value;
    ghost var fellBack := false;
    for i := 0 to |keys|
      invariant !fellBack
      invariant value == Walk(start, keys[..i])
      invariant i > 0 ==> value.Some?
    {
      assert keys[..i + 1][..i] == keys[..i];
      value := Step(value, keys[i]);
      if value.None? {
        WalkPrefixNone(start, keys, i + 1);
        value := if FallbackLocale in catalog then Some(catalog[FallbackLocale]) else None;
        ghost var uz := value;
        for j := 0 to |keys|
          invariant value == Walk(uz, keys[..j])
        {
          assert keys[..j + 1][..j] == keys[..j];
          value := Step(value, keys[j]);
        }
        assert keys[..|keys|] == keys;
        if uz.Some? {
          WalkIsDescend(uz.value, keys);
        } else {
          WalkFromNone(keys);
        }
        fellBack := true;
        break;
      }
    }
    if !fellBack {
      assert keys[..|keys|] == keys;
    }
    if start.Some? {
      WalkIsDescend(start.value, keys);
    } else {
      WalkFromNone(keys);
    }
    r := if value.Some? && (value.value.Table? || value.value.text != "") then value.value else Text(key);
  }

  /** A key whose every segment resolves, to a non-empty value, in the active locale gives that value. */
  lemma {:induction false} FoundInActiveLocale(catalog: Catalog, locale: string, path: seq<string>, e: Entry)
    requires |path| >= 1 && forall i :: 0 <= i < |path| ==> '.' !in path[i]
    requires Resolve(catalog, locale, path) == Some(e) && Truthy(Some(e))
    ensures Translate(catalog, locale, Join(path, '.')) == e
  {
    SplitJoin(path, '.');
  }

  /**
   * A key with a segment missing in the active locale is translated exactly
   * as it would be with Uzbek active: the whole key is walked in the Uzbek file.
   */
  lemma {:induction false} MissingInActiveLocale(catalog: Catalog, locale: string, path: seq<string>)
    requires |path| >= 1 && forall i :: 0 <= i < |path| ==> '.' !in path[i]
    requires Resolve(catalog, locale, path) == None
    ensures Translate(catalog, locale, Join(path, '.')) == Translate(catalog, FallbackLocale, Join(path, '.'))
    ensures Truthy(Resolve(catalog, FallbackLocale, path)) ==>
      Translate(catalog, locale, Join(path, '.')) == Resolve(catalog, FallbackLocale, path).value
  {
    SplitJoin(path, '.');
  }

  /** A key missing in both the active locale and Uzbek comes back unchanged. */
  lemma MissingEverywhere(catalog: Catalog, locale: string, key: string)
    requires Resolve(catalog, locale, Split(key, '.')) == None
    requires Resolve(catalog, FallbackLocale, Split(key, '.')) == None
    ensures Translate(catalog, locale, key) == Text(key)
  {
  }

  /**
   * An empty string found in the active locale also yields the key, and the
   * Uzbek file is not consulted: an empty string is not a missing segment.
   */
  lemma EmptyTextYieldsKey(catalog: Catalog, locale: string, key: string)
    requires Resolve(catalog, locale, Split(key, '.')) == Some(Text(""))
    ensures Translate(catalog, locale, key) == Text(key)
  {
  }

  /** A locale without a file behaves as a missing first segment: lookup goes to Uzbek. */
  lemma UnknownLocale(catalog: Catalog, locale: string, key: string)
    requires locale !in catalog
    ensures Translate(catalog, locale, key) == Translate(catalog, FallbackLocale, key)
  {
  }

  /** The file of `locale` exists and has `key` at its top level. */
  predicate HasTopKey(catalog: Catalog, locale: string, key: string)
  {
    locale in catalog && catalog[locale].Table? && key in catalog[locale].children
  }

  /** The documented example: a key that exists in no locale, such as `nonexistent.key`, is returned as is. */
  lemma NonexistentKeyExample(catalog: Catalog, locale: string)
    requires !HasTopKey(catalog, locale, "nonexistent") && !HasTopKey(catalog, FallbackLocale, "nonexistent")
    ensures Translate(catalog, locale, "nonexistent.key") == Text("nonexistent.key")
  {
    var path := ["nonexistent", "key"];
    assert Join(path, '.') == "nonexistent.key";
    SplitJoin(path, '.');
  }
}
