/**
 * The browser's `localStorage` as a typed string-keyed map. It holds the user
 * token under "token", the admin token under "adminToken" and one chat
 * transcript per user under "chat_" + username.
 */
module Storage {
  import opened Js

  datatype Sender = UserSender | BotSender

  datatype Message = Message(sender: Sender, text: string)

  /** A stored value: plain text (a token) or a serialised transcript `{messages, timestamp}`. */
  datatype Entry = Text(text: string) | Transcript(messages: seq<Message>, timestamp: int)

  const TokenKey: string := "token"
  const AdminTokenKey: string := "adminToken"

  class LocalStore {
    var entries: map<string, Entry>

    constructor ()
      ensures entries == map[]
    {
      entries := map[];
    }

    /** `getItem(key)`: the stored value, or `null`. */
    function GetItem(key: string): (r: Option<Entry>)
      reads this
      ensures r.Some? <==> key in entries
      ensures r.Some? ==> r.value == entries[key]
    {
      if key in entries then Some(entries[key]) else None
    }

    /** `getItem(key)` read as a token string. */
    function Token(key: string): (r: Option<string>)
      reads this
      ensures r.Some? <==> key in entries && entries[key].Text?
      ensures r.Some? ==> entries[key] == Text(r.value)
    {
      if key in entries && entries[key].Text? then Some(entries[key].text) else None
    }

    method SetItem(key: string, value: Entry)
      modifies this
      ensures entries == old(entries)[key := value]
    {
      entries := entries[key := value];
    }

    method RemoveItem(key: string)
      modifies this
      ensures entries == old(entries) - {key}
    {
      entries := entries - {key};
    }
  }
}
