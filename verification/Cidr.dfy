/** Addresses, CIDR notation and Go's net.IPNet, for IPv4 (32 bits) and IPv6 (128 bits). */
module Cidr {
  import opened Wrappers

  function Pow2(n: nat): (p: nat)
    ensures p >= 1
  {
    if n == 0 then 1 else 2 * Pow2(n - 1)
  }

  /** Bit `i` of `x`, counting from the least significant one. */
  function Bit(x: nat, i: nat): nat {
    if i == 0 then x % 2 else Bit(x / 2, i - 1)
  }

  /** Bits `from`, ..., `to` - 1 of the two numbers are the same. */
  ghost predicate BitsAgree(x: nat, y: nat, from: nat, to: nat) {
    forall i: nat | from <= i < to :: Bit(x, i) == Bit(y, i)
  }

  datatype AnyAddress = Address(width: nat, bits: nat)

  /** An IPv4 or an IPv6 address. */
  type Address = a: AnyAddress | (a.width == 32 || a.width == 128) && a.bits < Pow2(a.width)
    witness Address(32, 0)

  datatype AnyNotation = Notation(address: Address, prefix: nat) {
    /** Section 3.1 of RFC 4632 and section 2.3 of RFC 4291: the leading `prefix` bits agree. */
    ghost predicate Covers(a: Address) {
      && prefix <= a.width == address.width
      && BitsAgree(a.bits, address.bits, address.width - prefix, address.width)
    }
  }

  /** The reading of CIDR text: an address and how many leading bits of it count. */
  type Notation = n: AnyNotation | n.prefix <= n.address.width witness Notation(Address(32, 0), 0)

  /** What net.ParseCIDR makes of a text, None being its error.  The text grammar is a parameter. */
  type Reader = string -> Option<Notation>

  datatype IPNet = IPNet(width: nat, base: nat, prefix: nat) {
    /** net.IPNet.Contains: masking the address gives the base of the network. */
    predicate Contains(a: Address) {
      a.width == width && prefix <= width && Mask(a.bits, width - prefix) == base
    }
  }

  /** Clears the `host` lowest bits. */
  function Mask(bits: nat, host: nat): (masked: nat) {
    if host == 0 then bits else 2 * Mask(bits / 2, host - 1)
  }

  /** The network net.ParseCIDR returns: host bits are masked away. */
  function Network(n: Notation): IPNet {
    IPNet(n.address.width, Mask(n.address.bits, n.address.width - n.prefix), n.prefix)
  }

  /** Masking bit by bit: the host bits become zero and every other bit stays. */
  lemma {:induction false} MaskBits(x: nat, host: nat, i: nat)
    ensures Bit(Mask(x, host), i) == if i < host then 0 else Bit(x, i)
  {
    if host > 0 && i > 0 {
      MaskBits(x / 2, host - 1, i - 1);
    }
  }

  /** Numbers below 2^width are equal when all their bits are. */
  lemma {:induction false} BitsDetermine(x: nat, y: nat, width: nat)
    requires x < Pow2(width) && y < Pow2(width) && BitsAgree(x, y, 0, width)
    ensures x == y
  {
    if width > 0 {
      forall i: nat | i < width - 1
        ensures Bit(x / 2, i) == Bit(y / 2, i)
      {
        assert Bit(x, i + 1) == Bit(y, i + 1);
      }
      BitsDetermine(x / 2, y / 2, width - 1);
      assert Bit(x, 0) == Bit(y, 0);
    }
  }

  lemma {:induction false} MaskIsSmaller(x: nat, host: nat)
    ensures Mask(x, host) <= x
  {
    if host > 0 {
      MaskIsSmaller(x / 2, host - 1);
    }
  }

  lemma MaskEqualIsHighBits(x: nat, y: nat, host: nat, width: nat)
    requires x < Pow2(width) && y < Pow2(width)
    ensures Mask(x, host) == Mask(y, host) <==> BitsAgree(x, y, host, width)
  {
    forall i: nat
      ensures Bit(Mask(x, host), i) == if i < host then 0 else Bit(x, i)
      ensures Bit(Mask(y, host), i) == if i < host then 0 else Bit(y, i)
    {
      MaskBits(x, host, i);
      MaskBits(y, host, i);
    }
    if BitsAgree(x, y, host, width) {
      MaskIsSmaller(x, host);
      MaskIsSmaller(y, host);
      BitsDetermine(Mask(x, host), Mask(y, host), width);
    }
  }

  /** Masking loses nothing: the network net.ParseCIDR returns contains an address exactly when the
      leading bits that the notation fixes agree with it, host bits in the text or not. */
  lemma MaskingKeepsMeaning(n: Notation, a: Address)
    ensures Network(n).Contains(a) <==> n.Covers(a)
  {
    if a.width == n.address.width {
      var host := a.width - n.prefix;
      MaskEqualIsHighBits(a.bits, n.address.bits, host, a.width);
    }
  }
}
