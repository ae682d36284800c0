/** What several modules share. */
module Common {
  datatype Option<T> = None | Some(value: T)

  const SIZE_MAX: nat := 0xFFFF_FFFF_FFFF_FFFF

  function Once(b: bool): nat
  {
    if b then 1 else 0
  }

  /** The list without the first x. */
  function Without<T(==)>(list: seq<T>, x: T): seq<T>
  {
    if list == [] then [] else if list[0] == x then list[1..] else [list[0]] + Without(list[1..], x)
  }

  ghost predicate NoDup<T>(list: seq<T>)
  {
    forall i, j :: 0 <= i < j < |list| ==> list[i] != list[j]
  }
}
