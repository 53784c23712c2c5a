/** What several of the modelled parts share. */
module Common {

  type Byte = b: int | 0 <= b < 256

  datatype Option<T> = None | Some(value: T)

  const EINVAL := 22

  function Min(a: int, b: int): int { if a < b then a else b }

  function Max(a: int, b: int): int { if a < b then b else a }

  function One(b: bool): nat { if b then 1 else 0 }
}
