/** The optional value of Swift (`T?`), used wherever the apps test for `nil`. */
module Optional {

  datatype Option<+T> = None | Some(value: T) {

    /** `self ?? default` */
    function GetOr(default: T): T {
      match this
      case Some(v) => v
      case None => default
    }
  }
}
