/** The floating-point and library primitives the model does not interpret.

    The C code calls FFTW, sqrt, atan, cos and sin, and copies raw bytes with memcpy.
    A caller supplies them as total functions, and every property of the model holds
    whatever they compute.  The one exception is sqrt(x*x) for a bin without an
    imaginary part, which Fft.Magnitude fixes as |x| rather than taking from here. */
module Numerics {

  datatype Numerics = Numerics(
    /** FFTW_R2HC plan of the transform size: real input to half-complex spectrum. */
    forward: seq<real> -> seq<real>,
    /** FFTW_HC2R plan of the transform size: unnormalised inverse. */
    backward: seq<real> -> seq<real>,
    /** sqrt(re*re + im*im) for a bin that has an imaginary part. */
    hypot: (real, real) -> real,
    /** complex_argument(re, im), the atan-based phase of a bin. */
    argument: (real, real) -> real,
    cos: real -> real,
    sin: real -> real,
    /** Hamming coefficient 0.54 - 0.46*cos(2*pi*j/(n-1)) of sample j in a window of n. */
    hamming: (nat, nat) -> real,
    /** The double whose first k bytes come from the first argument and whose
        remaining bytes come from the second (a partial memcpy of one sample). */
    byteSplice: (real, real, nat) -> real
  )
}
