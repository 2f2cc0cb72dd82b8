/** The browser's `localStorage`: a string-to-string map shared by the whole client. */
module BrowserStorage {
  import opened Wrappers

  /** The key under which the user's Telegram identifier is stored. */
  const TelegramIdKey := "telegram_id"

  /** The key under which the selected interface language is stored. */
  const LocaleKey := "locale"

  function Lookup(items: map<string, string>, key: string): Option<string>
  {
    if key in items then Some(items[key]) else None
  }

  class LocalStorage {
    var items: map<string, string>

    constructor ()
      ensures items == map[]
    {
      items := map[];
    }

    /** `getItem`: the stored string, or null. */
    function GetItem(key: string): Option<string>
      reads this
    {
      Lookup(items, key)
    }

    method SetItem(key: string, value: string)
      modifies this
      ensures items == old(items)[key := value]
    {
      items := items[key := value];
    }

    method RemoveItem(key: string)
      modifies this
      ensures items == old(items) - {key}
    {
      items := items - {key};
    }
  }
}
