/** Machine words and their bytes in either order. */
module Words {

  type u8 = x: nat | x < 0x100
  type u16 = x: nat | x < 0x1_0000
  type u32 = x: nat | x < 0x1_0000_0000

  datatype ByteOrder = Little | Big

  function Bytes2(x: u16, order: ByteOrder): (b: seq<u8>)
    ensures |b| == 2 && Word2(b, order) == x
  {
    if order.Little? then [x % 0x100, x / 0x100] else [x / 0x100, x % 0x100]
  }

  function Word2(b: seq<u8>, order: ByteOrder): u16
    requires |b| == 2
  {
    var first: nat, second: nat := b[0], b[1];
    if order.Little? then first + 0x100 * second else second + 0x100 * first
  }

  function Bytes4(x: u32, order: ByteOrder): (b: seq<u8>)
    ensures |b| == 4 && Word4(b, order) == x
  {
    var low, high := Bytes2(x % 0x1_0000, order), Bytes2(x / 0x1_0000, order);
    var b := if order.Little? then low + high else high + low;
    assert b[..2] == (if order.Little? then low else high) && b[2..] == (if order.Little? then high else low);
    b
  }

  function Word4(b: seq<u8>, order: ByteOrder): u32
    requires |b| == 4
  {
    var first: nat, second: nat := Word2(b[..2], order), Word2(b[2..], order);
    if order.Little? then first + 0x1_0000 * second else second + 0x1_0000 * first
  }
}
