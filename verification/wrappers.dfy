/** Option type used wherever the application holds a nullable value
    (`Location | null`, an optional address, a geocoding or routing miss). */
module Wrappers {

  datatype Option<+T> = None | Some(value: T) {

    /** The wrapped value, or `default` when there is none (JavaScript's `x || default`
        on a value that is either present or missing). */
    function GetOr(default: T): T {
      if Some? then value else default
    }
  }
}
