/** The browser state the client and the sign-in callback touch: `localStorage`, the page location
    and the toast messages shown to the user. */
module Browser {
  import opened Wrappers

  /** A file picked in an `<input type="file">`: its MIME type and its size in bytes. */
  datatype File = File(name: string, mimeType: string, size: nat)

  class Window {
    var storage: map<string, string>
    var location: string
    var toasts: seq<string>

    constructor (storage0: map<string, string>, location0: string)
      ensures storage == storage0 && location == location0 && toasts == []
    {
      storage := storage0;
      location := location0;
      toasts := [];
    }

    /** `localStorage.getItem(key)`: `null` when the key is absent. */
    function GetItem(key: string): (r: Option<string>)
      reads this
      ensures r.Some? <==> key in storage
      ensures r.Some? ==> r.value == storage[key]
    {
      if key in storage then Some(storage[key]) else None
    }

    method SetItem(key: string, value: string)
      modifies this`storage
      ensures storage == old(storage)[key := value]
    {
      storage := storage[key := value];
    }

    method RemoveItem(key: string)
      modifies this`storage
      ensures storage == old(storage) - {key}
    {
      storage := storage - {key};
    }

    /** `window.location.href = href`. */
    method Assign(href: string)
      modifies this`location
      ensures location == href
    {
      location := href;
    }

    /** `toast.error(message)`. */
    method Toast(message: string)
      modifies this`toasts
      ensures toasts == old(toasts) + [message]
    {
      toasts := toasts + [message];
    }
  }
}
