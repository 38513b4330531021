/** Option and the few constants shared by the modules of the model. */
module Base {
  datatype Option<+T> = None | Some(value: T)

  /** Volume handles, pod UIDs, Secret names. UIDs and Secret names are drawn from counters: never empty, never reused. */
  type VolumeId = string
  type Uid = nat
  type SecretId = nat
  type Path = string

  function Max(a: int, b: int): int { if a > b then a else b }

  function Min(a: int, b: int): int { if a < b then a else b }
}
