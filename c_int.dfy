/** The C `int` of the kernels below: 32 bits, two's complement; overflow is undefined behaviour. */
module CInt {
  const IntMin := -0x8000_0000
  const IntMax := 0x7fff_ffff

  type Int32 = x: int | IntMin <= x <= IntMax
}
