/**
 * `ApiVersion`: a Vulkan version packed into one 32-bit word as the "Version
 * Numbers" section of the Vulkan specification lays it out (VK_MAKE_API_VERSION):
 * variant in bits 29-31, major in bits 22-28, minor in bits 12-21, patch in
 * bits 0-11.
 */
module VkVersion {
  import opened Outcome
  import opened Text

  datatype ApiVersion = ApiVersion(raw: bv32)
  {
    /** `major()`: 7 bits from bit 22. */
    function Major(): (m: bv32)
      ensures m <= 127
    {
      (raw >> 22) & 0x7F
    }

    /** `minor()`: 10 bits from bit 12. */
    function Minor(): (m: bv32)
      ensures m <= 1023
    {
      (raw >> 12) & 0x3FF
    }

    /** `patch()`: the low 12 bits. */
    function Patch(): (p: bv32)
      ensures p <= 4095
    {
      raw & 0xFFF
    }

    /** Bits 29-31; the wrapper has no accessor for them. */
    function VariantBits(): bv32 {
      raw >> 29
    }
  }

  /** `ApiVersion::new(variant, major, minor, patch)`. */
  function New(variant: bv32, major: bv32, minor: bv32, patch: bv32): (v: ApiVersion)
    ensures variant < 8 && major < 128 && minor < 1024 && patch < 4096 ==>
      v.VariantBits() == variant && v.Major() == major && v.Minor() == minor && v.Patch() == patch
  {
    var v := ApiVersion((variant << 29) | (major << 22) | (minor << 12) | patch);
    if variant < 8 && major < 128 && minor < 1024 && patch < 4096 then
      FieldsRoundTrip(variant, major, minor, patch);
      v
    else
      v
  }

  lemma FieldsRoundTrip(variant: bv32, major: bv32, minor: bv32, patch: bv32)
    requires variant < 8 && major < 128 && minor < 1024 && patch < 4096
    ensures var raw := (variant << 29) | (major << 22) | (minor << 12) | patch;
      raw >> 29 == variant && (raw >> 22) & 0x7F == major &&
      (raw >> 12) & 0x3FF == minor && raw & 0xFFF == patch
  {
    var raw := (variant << 29) | (major << 22) | (minor << 12) | patch;
    assert raw >> 29 == variant;
    assert (raw >> 22) & 0x7F == major;
    assert (raw >> 12) & 0x3FF == minor;
    assert raw & 0xFFF == patch;
  }

  /** Packing the four fields of any word gives the word back. */
  lemma NewOfFields(v: ApiVersion)
    ensures New(v.VariantBits(), v.Major(), v.Minor(), v.Patch()) == v
  {
    var raw := v.raw;
    assert (raw >> 29 << 29) | (((raw >> 22) & 0x7F) << 22) | (((raw >> 12) & 0x3FF) << 12) | (raw & 0xFFF) == raw;
  }

  /** The three accessors do not look at the variant bits 29-31. */
  lemma AccessorsIgnoreVariant(v: ApiVersion, variant: bv32)
    requires variant < 8
    ensures var w := ApiVersion((v.raw & 0x1FFF_FFFF) | (variant << 29));
      w.Major() == v.Major() && w.Minor() == v.Minor() && w.Patch() == v.Patch()
  {
    MajorIgnoresVariant(v.raw, variant);
    MinorIgnoresVariant(v.raw, variant);
    PatchIgnoresVariant(v.raw, variant);
  }

  lemma MajorIgnoresVariant(raw: bv32, variant: bv32)
    requires variant < 8
    ensures (((raw & 0x1FFF_FFFF) | (variant << 29)) >> 22) & 0x7F == (raw >> 22) & 0x7F
  {
  }

  lemma MinorIgnoresVariant(raw: bv32, variant: bv32)
    requires variant < 8
    ensures (((raw & 0x1FFF_FFFF) | (variant << 29)) >> 12) & 0x3FF == (raw >> 12) & 0x3FF
  {
  }

  lemma PatchIgnoresVariant(raw: bv32, variant: bv32)
    requires variant < 8
    ensures ((raw & 0x1FFF_FFFF) | (variant << 29)) & 0xFFF == raw & 0xFFF
  {
  }

  const V1_0: ApiVersion := New(0, 1, 0, 0)
  const V1_1: ApiVersion := New(0, 1, 1, 0)
  const V1_2: ApiVersion := New(0, 1, 2, 0)

  /** The derived `Default`: the word 0. */
  const DEFAULT: ApiVersion := ApiVersion(0)

  /** `From<u32>`: the word is stored unchanged. */
  function From(word: bv32): (v: ApiVersion)
    ensures v.raw == word
  {
    ApiVersion(word)
  }

  /** The named constants decode to 1.0.0, 1.1.0 and 1.2.0; the default to 0.0.0. */
  lemma ConstantsDecode()
    ensures V1_0.Major() == 1 && V1_0.Minor() == 0 && V1_0.Patch() == 0
    ensures V1_1.Major() == 1 && V1_1.Minor() == 1 && V1_1.Patch() == 0
    ensures V1_2.Major() == 1 && V1_2.Minor() == 2 && V1_2.Patch() == 0
    ensures DEFAULT == From(0) && DEFAULT.Major() == 0 && DEFAULT.Minor() == 0 && DEFAULT.Patch() == 0
  {
  }

  /** `Display`: `"{major}.{minor}.{patch}"`. */
  function Display(v: ApiVersion): string {
    Decimal(v.Major() as nat) + "." + Decimal(v.Minor() as nat) + "." + Decimal(v.Patch() as nat)
  }

  /** Reads `"a.b.c"` with three decimal numerals back into its three numbers. */
  function ParseDotted(s: string): Option<(nat, nat, nat)> {
    match SplitAt(s, '.')
    case None => None
    case Some(head) =>
      match SplitAt(head.1, '.')
      case None => None
      case Some(tail) =>
        if Numeral(head.0) && Numeral(tail.0) && Numeral(tail.1) then
          Some((ValueOf(head.0), ValueOf(tail.0), ValueOf(tail.1)))
        else
          None
  }

  /** The rendering is exactly major, minor and patch in decimal, separated by dots. */
  lemma {:induction false} DisplayReadsBack(v: ApiVersion)
    ensures ParseDotted(Display(v)) == Some((v.Major() as nat, v.Minor() as nat, v.Patch() as nat))
  {
    var a, b, c := Decimal(v.Major() as nat), Decimal(v.Minor() as nat), Decimal(v.Patch() as nat);
    assert Display(v) == a + ['.'] + (b + ['.'] + c);
    assert '.' !in a;
    assert '.' !in b;
    SplitAtFirst(a, b + ['.'] + c, '.');
    SplitAtFirst(b, c, '.');
    ValueOfDecimal(v.Major() as nat);
    ValueOfDecimal(v.Minor() as nat);
    ValueOfDecimal(v.Patch() as nat);
  }
}
