/**
 * Runtime values (src/value.rs). A number's `f64` payload is carried as its
 * 64-bit IEEE-754 bit pattern and never computed with; an object is an opaque
 * handle, since no modelled operation creates or inspects heap objects.
 */
module Values {

  datatype Value =
    | Number(bits: bv64)
    | Boolean(b: bool)
    | Nil
    | String(text: string)
    | Object(handle: nat)
}
