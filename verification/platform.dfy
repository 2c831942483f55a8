/**
 * Stand-ins for the platform entities the core talks about: JVM classes,
 * view identities and the integer visibility constants of android.view.View.
 */
module Platform {
  import opened Wrappers

  /** A JVM class: its binary name identifies it, its canonical name may be absent
      (anonymous and local classes have none). */
  datatype JClass = JClass(name: string, canonicalName: Option<string>)

  /** A view instance: reference identity plus the class it is an instance of. */
  datatype ViewRef = ViewRef(id: nat, cls: JClass)

  /** View.VISIBLE, View.INVISIBLE and View.GONE. */
  const VISIBLE: int := 0
  const INVISIBLE: int := 4
  const GONE: int := 8
}
