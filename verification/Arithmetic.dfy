module Arithmetic {

  function SaturatingSub(x: nat, y: nat): nat {
    if x < y then 0 else x - y
  }

  function Min(x: nat, y: nat): nat {
    if x <= y then x else y
  }
}
