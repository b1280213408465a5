/** Machine words as the sources use them. */
module Words {

  type Byte = b: int | 0 <= b < 256

  const U32_SPAN: nat := 0x1_0000_0000
}
