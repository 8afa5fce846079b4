/**
 * The two pieces of browser state the admin pages and the navbar touch:
 * localStorage as a string-to-string map, and the router's current path.
 */
module Browser {
  import opened Types

  const TokenKey := "adminToken"
  const HomePath := "/"
  const LoginPath := "/admin/login"
  const DashboardPath := "/admin/dashboard"

  class Window {
    var storage: map<string, string>
    var path: string

    constructor (path: string, storage: map<string, string>)
      ensures this.path == path && this.storage == storage
    {
      this.path := path;
      this.storage := storage;
    }

    /** localStorage.getItem: None stands for null. */
    function GetItem(key: string): (r: Option<string>)
      reads this
      ensures r.Some? <==> key in storage
      ensures r.Some? ==> r.value == storage[key]
    {
      if key in storage then Some(storage[key]) else None
    }

    method SetItem(key: string, value: string)
      modifies this
      ensures storage == old(storage)[key := value] && path == old(path)
    {
      storage := storage[key := value];
    }

    method RemoveItem(key: string)
      modifies this
      ensures storage == old(storage) - {key} && path == old(path)
    {
      storage := storage - {key};
    }

    /** navigate(to) of the router. */
    method Navigate(to: string)
      modifies this
      ensures path == to && storage == old(storage)
    {
      path := to;
    }
  }
}
