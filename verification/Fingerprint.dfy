/**
 The request fingerprint stored with an idempotency key: SHA-256 over the invoice id, the card
 token and the amount. SHA-256 is taken to be collision-free, so a digest is a free constructor
 over its pre-image; that the pre-image itself determines the request is proved here.
 */
module Fingerprint {
  import opened Common

  datatype Digest = Sha256(preimage: Text)

  function Pow256(n: nat): nat { if n == 0 then 1 else 0x100 * Pow256(n - 1) }

  function BigEndian(x: nat, width: nat): (b: Text)
    ensures |b| == width
  {
    if width == 0 then [] else BigEndian(x / 0x100, width - 1) + [x % 0x100]
  }

  function LittleEndian(x: nat, width: nat): (b: Text)
    ensures |b| == width
  {
    if width == 0 then [] else [x % 0x100] + LittleEndian(x / 0x100, width - 1)
  }

  /** Two's complement: `i64::to_le_bytes`. */
  function CentsBytes(x: Cents): (b: Text)
    ensures |b| == 8
  {
    LittleEndian(if x >= 0 then x else x + 0x1_0000_0000_0000_0000, 8)
  }

  function Preimage(invoice: Id, token: Text, amount: Cents): Text {
    BigEndian(invoice, 16) + [0] + token + [0] + CentsBytes(amount)
  }

  function Of(invoice: Id, token: Text, amount: Cents): Digest {
    Sha256(Preimage(invoice, token, amount))
  }

  lemma {:induction false} BigEndianInjective(x: nat, y: nat, width: nat)
    requires x < Pow256(width) && y < Pow256(width)
    requires BigEndian(x, width) == BigEndian(y, width)
    ensures x == y
  {
    if width > 0 {
      var p, q := BigEndian(x, width), BigEndian(y, width);
      assert p[width - 1] == x % 0x100 && q[width - 1] == y % 0x100;
      assert p[..width - 1] == BigEndian(x / 0x100, width - 1);
      assert q[..width - 1] == BigEndian(y / 0x100, width - 1);
      BigEndianInjective(x / 0x100, y / 0x100, width - 1);
    }
  }

  lemma {:induction false} LittleEndianInjective(x: nat, y: nat, width: nat)
    requires x < Pow256(width) && y < Pow256(width)
    requires LittleEndian(x, width) == LittleEndian(y, width)
    ensures x == y
  {
    if width > 0 {
      var p, q := LittleEndian(x, width), LittleEndian(y, width);
      assert p[0] == x % 0x100 && q[0] == y % 0x100;
      assert p[1..] == LittleEndian(x / 0x100, width - 1);
      assert q[1..] == LittleEndian(y / 0x100, width - 1);
      LittleEndianInjective(x / 0x100, y / 0x100, width - 1);
    }
  }

  lemma Widths()
    ensures Pow256(8) == 0x1_0000_0000_0000_0000
    ensures Pow256(16) == ID_LIMIT
  {
    assert Pow256(4) == 0x1_0000_0000;
    assert Pow256(8) == 0x100 * (0x100 * (0x100 * (0x100 * Pow256(4))));
    assert Pow256(12) == 0x100 * (0x100 * (0x100 * (0x100 * Pow256(8))));
    assert Pow256(16) == 0x100 * (0x100 * (0x100 * (0x100 * Pow256(12))));
  }

  /**
   Distinct requests never share a fingerprint, whatever bytes the token holds: the separators do
   not matter, the fixed widths around the token do.
   */
  lemma FingerprintDeterminesRequest(i: Id, t: Text, a: Cents, i': Id, t': Text, a': Cents)
    ensures Of(i, t, a) == Of(i', t', a') <==> i == i' && t == t' && a == a'
  {
    var p, p' := Preimage(i, t, a), Preimage(i', t', a');
    if p == p' {
      assert |t| == |t'|;
      assert p[..16] == BigEndian(i, 16) && p'[..16] == BigEndian(i', 16);
      assert p[17..17 + |t|] == t && p'[17..17 + |t|] == t';
      assert p[18 + |t|..] == CentsBytes(a) && p'[18 + |t|..] == CentsBytes(a');
      Widths();
      BigEndianInjective(i, i', 16);
      LittleEndianInjective(if a >= 0 then a else a + 0x1_0000_0000_0000_0000,
                            if a' >= 0 then a' else a' + 0x1_0000_0000_0000_0000, 8);
    }
  }
}
