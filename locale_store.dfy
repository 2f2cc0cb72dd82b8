/**
 * The locale store: one shared `locale` value, `uz` at start, persisted to
 * local storage by `setLocale` and restored by `initLocale` only when the
 * saved value is one of the supported locales.
 */
module LocaleStore {
  import opened Wrappers
  import opened BrowserStorage

  const DefaultLocale := "uz"

  const SupportedLocales: seq<string> := ["uz", "ru", "en"]

  /** The locale `initLocale` settles on, given what is saved and what is current. */
  function RestoredLocale(saved: Option<string>, current: string): (r: string)
    ensures r == current || r in SupportedLocales
    ensures saved.Some? && saved.value in SupportedLocales ==> r == saved.value
    ensures !(saved.Some? && saved.value in SupportedLocales) ==> r == current
  {
    if saved.Some? && saved.value != "" && saved.value in SupportedLocales then saved.value else current
  }

  class LocaleState {
    var locale: string
    const storage: LocalStorage

    constructor (storage: LocalStorage)
      ensures locale == DefaultLocale && this.storage == storage
    {
      locale := DefaultLocale;
      this.storage := storage;
    }

    /** `setLocale`: adopts any string, supported or not, and saves it. */
    method SetLocale(newLocale: string)
      modifies this, storage
      ensures locale == newLocale
      ensures storage.items == old(storage.items)[LocaleKey := newLocale]
    {
      locale := newLocale;
      storage.SetItem(LocaleKey, newLocale);
    }

    /** `initLocale`: reads the saved locale and never writes storage. */
    method InitLocale()
      modifies this
      ensures locale == RestoredLocale(Lookup(storage.items, LocaleKey), old(locale))
      ensures unchanged(storage)
    {
      var saved := storage.GetItem(LocaleKey);
      if saved.Some? && saved.value != "" && saved.value in SupportedLocales {
        locale := saved.value;
      }
    }
  }

  /** Round trip on the storage map: a supported locale that was saved is the one restored. */
  lemma LocaleRoundTrip(items: map<string, string>, x: string, current: string)
    requires x in SupportedLocales
    ensures RestoredLocale(Lookup(items[LocaleKey := x], LocaleKey), current) == x
  {
  }

  /** Round trip on the store: `setLocale(x)` then `initLocale()` leaves `x` selected. */
  method SetThenInit(state: LocaleState, x: string)
    requires x in SupportedLocales
    modifies state, state.storage
    ensures state.locale == x
    ensures state.storage.items == old(state.storage.items)[LocaleKey := x]
  {
    state.SetLocale(x);
    state.InitLocale();
  }
}
