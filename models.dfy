/** The `Asset` record and the values it is built from. */
module Models {
  import opened Common
  import opened Text

  /** Upper bound of a 128-bit value. */
  const GuidLimit: int := 0x1_0000_0000_0000_0000_0000_0000_0000_0000

  /** A `System.Guid`, as the 128-bit number whose 32 hexadecimal digits are
      the ones its standard text form shows. */
  newtype Guid = x: int | 0 <= x < 0x1_0000_0000_0000_0000_0000_0000_0000_0000

  /** `Guid.Empty`, the `default` of a `Guid`. */
  const EmptyGuid: Guid := 0

  /** A `DateTime` reading, in ticks. */
  type DateTime = int

  /** An asset. `UpdatedDate` is an optional date: the command handlers'
      update and replace stamp it, and the controllers store whatever the
      body carries. */
  datatype Asset = Asset(
    id: Guid,
    createdDate: DateTime,
    name: Option<string>,
    updatedDate: Option<DateTime>)

  /** `Guid.ToString()`: 32 lower-case hexadecimal digits in groups of
      8-4-4-4-12 separated by hyphens. */
  function GuidString(g: Guid): (s: string)
    ensures |s| == 36
    ensures s[8] == '-' && s[13] == '-' && s[18] == '-' && s[23] == '-'
  {
    var h := HexDigits(g as nat, 32);
    h[..8] + "-" + h[8..12] + "-" + h[12..16] + "-" + h[16..20] + "-" + h[20..]
  }

  lemma GuidLimitIsPow16()
    ensures Pow16(32) == GuidLimit
  {
    assert Pow16(2) == 256;
    Pow16Add(2, 2);
    Pow16Add(4, 4);
    Pow16Add(8, 8);
    Pow16Add(16, 16);
  }

  /** Dropping the four hyphens of a `Guid`'s text form gives back its 32
      digits. */
  lemma GuidStringDigits(g: Guid)
    ensures var s := GuidString(g);
            HexDigits(g as nat, 32) == s[..8] + s[9..13] + s[14..18] + s[19..23] + s[24..]
  {
    var h := HexDigits(g as nat, 32);
    var s := GuidString(g);
    assert s[..8] == h[..8];
    assert s[9..13] == h[8..12];
    assert s[14..18] == h[12..16];
    assert s[19..23] == h[16..20];
    assert s[24..] == h[20..];
    assert h == h[..8] + h[8..12] + h[12..16] + h[16..20] + h[20..];
  }

  /** The text form of a `Guid` identifies it: two identifiers print the
      same exactly when they are equal. */
  lemma GuidStringInjective(a: Guid, b: Guid)
    ensures GuidString(a) == GuidString(b) <==> a == b
  {
    if GuidString(a) == GuidString(b) {
      GuidStringDigits(a);
      GuidStringDigits(b);
      assert HexDigits(a as nat, 32) == HexDigits(b as nat, 32);
      GuidLimitIsPow16();
      ParseHexDigits(a as nat, 32);
      ParseHexDigits(b as nat, 32);
    }
  }

  /** The asset with its `UpdatedDate` set to the reading `now`. */
  function Stamped(a: Asset, now: DateTime): (stamped: Asset) {
    a.(updatedDate := Some(now))
  }

  /** Every asset of a batch stamped with its own clock reading. */
  function StampedAll(assets: seq<Asset>, clock: seq<DateTime>): (stamped: seq<Asset>)
    requires |clock| == |assets|
  {
    seq(|assets|, i requires 0 <= i < |assets| => Stamped(assets[i], clock[i]))
  }

  /** The loop that sets `UpdatedDate = UtcNow` on every asset of a batch.
      The clock is read once per asset; `clock[i]` is the reading taken for
      the asset at position `i`. */
  method StampUpdatedDates(assets: seq<Asset>, clock: seq<DateTime>) returns (stamped: seq<Asset>)
    requires |clock| == |assets|
    ensures stamped == StampedAll(assets, clock)
    ensures |stamped| == |assets|
    ensures forall i :: 0 <= i < |assets| ==>
              stamped[i].updatedDate == Some(clock[i]) &&
              stamped[i].id == assets[i].id &&
              stamped[i].createdDate == assets[i].createdDate &&
              stamped[i].name == assets[i].name
  {
    stamped := [];
    var i := 0;
    while i < |assets|
      invariant 0 <= i <= |assets|
      invariant |stamped| == i
      invariant forall k :: 0 <= k < i ==> stamped[k] == Stamped(assets[k], clock[k])
    {
      stamped := stamped + [Stamped(assets[i], clock[i])];
      i := i + 1;
    }
  }
}
