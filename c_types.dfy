/** The C integer types whose width the model keeps explicit. */
module CTypes {
  /** 2^32: unsigned int and uint32_t arithmetic wraps modulo this value. */
  const Uint32Modulus: nat := 0x1_0000_0000
  /** (unsigned int) -1. */
  const Uint32Max: nat := 0xFFFF_FFFF

  /** uint32_t. */
  type Uint32 = x: int | 0 <= x < Uint32Modulus

  /** int16_t, the sample format of the capture stream (PA_SAMPLE_S16LE). */
  newtype Int16 = x: int | -0x8000 <= x < 0x8000

  /** Whether a string (char or wchar_t) holds no NUL, as the contents of a C string. */
  predicate NulFree(s: seq<char>)
  {
    forall k :: 0 <= k < |s| ==> s[k] != '\0'
  }
}
