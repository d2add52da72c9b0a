/** What the two OpenMesh viewer widgets (`MeshListViewerWidgetT`,
    `MeshPairViewerWidgetT`) have in common: the power-of-two texture sides
    of `set_texture`, the texture-environment cycle of key T, the strip
    draw modes and the colour counters of the "Show Strips" mode. */
module Viewing {

  // ---------------------------------------------------------------------------
  // Texture sizes

  predicate PowerOfTwo(n: int)
    decreases n
  {
    n == 1 || (n > 1 && n % 2 == 0 && PowerOfTwo(n / 2))
  }

  /** The side a texture is scaled to: a shift loop doubles t from 1 while it
      is at most the side, then halves it once. For a side of at least 1
      that is the largest power of two not above it; otherwise 0. */
  method TextureSide(w: int) returns (side: int)
    ensures w < 1 ==> side == 0
    ensures w >= 1 ==> PowerOfTwo(side) && side <= w < 2 * side
  {
    var t := 1;
    while t <= w
      invariant PowerOfTwo(t) && (t == 1 || t / 2 <= w)
      decreases w - t
    {
      t := t * 2;
    }
    side := t / 2;
  }

  /** Powers of two are at least 1, so the side found is never 0 for an
      image that has pixels. */
  lemma {:induction false} PowerOfTwoPositive(n: int)
    requires PowerOfTwo(n)
    ensures n >= 1
    decreases n
  {
    if n != 1 {
      PowerOfTwoPositive(n / 2);
    }
  }

  /** Powers of two are closed under doubling. */
  lemma DoubledPowerOfTwo(n: int)
    requires PowerOfTwo(n)
    ensures PowerOfTwo(2 * n)
  {
    PowerOfTwoPositive(n);
    assert (2 * n) / 2 == n;
  }

  // ---------------------------------------------------------------------------
  // Texture environment modes (OpenGL enumerants)

  const Modulate: int := 0x2100
  const Decal: int := 0x2101
  const Blend: int := 0x0BE2
  const Replace: int := 0x1E01

  /** Key T: MODULATE -> DECAL -> BLEND -> REPLACE -> MODULATE; any other
      value is left as it is. */
  function NextTexMode(m: int): (n: int)
  {
    if m == Modulate then Decal
    else if m == Decal then Blend
    else if m == Blend then Replace
    else if m == Replace then Modulate
    else m
  }

  predicate CycledMode(m: int)
  {
    m == Modulate || m == Decal || m == Blend || m == Replace
  }

  /** Four presses of key T lead back to the starting mode, whatever it is;
      one press moves a mode of the cycle to a different mode of the cycle
      and leaves any other value alone. */
  lemma TexModeCycle(m: int)
    ensures NextTexMode(NextTexMode(NextTexMode(NextTexMode(m)))) == m
    ensures CycledMode(m) ==> CycledMode(NextTexMode(m)) && NextTexMode(m) != m
    ensures !CycledMode(m) ==> NextTexMode(m) == m
  {
  }

  // ---------------------------------------------------------------------------
  // Strip draw modes

  /** The mode `enable_strips` adds and the one `disable_strips` deletes: the
      two spellings differ by one letter. */
  const StripsVertexArrays: string := "Strips'n VertexArrays"
  const StripVertexArrays: string := "Strip'n VertexArrays"
  const ShowStrips: string := "Show Strips"

  /** The strip flag and the offered draw modes. `add_draw_mode` and
      `del_draw_mode` belong to the viewer base class, which is not part of
      this model; they are taken to add a mode to, and remove a mode from,
      the set of offered modes. */
  datatype Strips = Strips(on: bool, modes: set<string>)

  function EnableStrips(s: Strips): (t: Strips)
  {
    if s.on then s else Strips(true, s.modes + {StripsVertexArrays, ShowStrips})
  }

  function DisableStrips(s: Strips): (t: Strips)
  {
    if s.on then Strips(false, s.modes - {ShowStrips, StripVertexArrays}) else s
  }

  /** Each call acts only when the flag is in the other state, so a second
      call changes nothing, and the flag ends in the requested state. */
  lemma StripsIdempotent(s: Strips)
    ensures EnableStrips(EnableStrips(s)) == EnableStrips(s) && EnableStrips(s).on
    ensures DisableStrips(DisableStrips(s)) == DisableStrips(s) && !DisableStrips(s).on
    ensures s.on ==> EnableStrips(s) == s
    ensures !s.on ==> DisableStrips(s) == s
  {
  }

  /** Enabling and then disabling the strips withdraws "Show Strips" but
      leaves "Strips'n VertexArrays" offered, because disabling deletes the
      other spelling. */
  lemma StripsModeOutlivesDisable(s: Strips)
    requires !s.on
    ensures StripsVertexArrays in DisableStrips(EnableStrips(s)).modes
    ensures ShowStrips !in DisableStrips(EnableStrips(s)).modes
  {
    assert StripsVertexArrays != ShowStrips && StripsVertexArrays != StripVertexArrays by {
      assert StripsVertexArrays[5] != ShowStrips[5];
      assert StripsVertexArrays[5] != StripVertexArrays[5];
    }
  }

  // ---------------------------------------------------------------------------
  // "Show Strips" colour counters

  const ColourRange: int := 220
  const RedStep: int := 13
  const GreenStep: int := 31
  const BlueStep: int := 17

  datatype Colour = Colour(r: int, g: int, b: int)

  /** The counters of strip j (from 0): each starts at its own offset (0,
      31, 34) and has advanced by its step j + 1 times, modulo 220. */
  function StripColour(j: nat): Colour
  {
    Colour((RedStep * (j + 1)) % ColourRange,
           (GreenStep + GreenStep * (j + 1)) % ColourRange,
           (2 * BlueStep + BlueStep * (j + 1)) % ColourRange)
  }

  predicate InColourRange(c: Colour)
  {
    0 <= c.r < ColourRange && 0 <= c.g < ColourRange && 0 <= c.b < ColourRange
  }

  /** The colour loop over n strips: every strip first advances the three
      counters by 13, 31 and 17 modulo 220, then draws with them. */
  method StripColours(n: nat) returns (cs: seq<Colour>)
    ensures |cs| == n
    ensures forall j :: 0 <= j < n ==> cs[j] == StripColour(j) && InColourRange(cs[j])
  {
    var r, g, b := 0, GreenStep, BlueStep + BlueStep;
    cs := [];
    while |cs| < n
      invariant |cs| <= n
      invariant forall j :: 0 <= j < |cs| ==> cs[j] == StripColour(j) && InColourRange(cs[j])
      invariant Colour(r, g, b) == (if |cs| == 0 then Colour(0, GreenStep, 2 * BlueStep) else StripColour(|cs| - 1))
    {
      r := (r + RedStep) % ColourRange;
      g := (g + GreenStep) % ColourRange;
      b := (b + BlueStep) % ColourRange;
      StepColour(|cs|);
      cs := cs + [Colour(r, g, b)];
    }
  }

  /** One more strip: the counters of strip j advanced once are those of
      strip j + 1. */
  lemma StepColour(j: nat)
    ensures var c := if j == 0 then Colour(0, GreenStep, 2 * BlueStep) else StripColour(j - 1);
            StripColour(j) == Colour((c.r + RedStep) % ColourRange, (c.g + GreenStep) % ColourRange, (c.b + BlueStep) % ColourRange)
  {
    if j > 0 {
      ModAdd(RedStep * j, RedStep);
      ModAdd(GreenStep + GreenStep * j, GreenStep);
      ModAdd(2 * BlueStep + BlueStep * j, BlueStep);
    }
  }

  lemma ModAdd(a: int, d: int)
    ensures (a % ColourRange + d) % ColourRange == (a + d) % ColourRange
  {
    var q := a / ColourRange;
    assert a == q * ColourRange + a % ColourRange;
    assert a % ColourRange + d == (a + d) - q * ColourRange;
  }

  /** The counters repeat with period 220 strips. */
  lemma StripColourPeriod(j: nat)
    ensures StripColour(j + 220) == StripColour(j)
  {
    assert RedStep * (j + 220 + 1) == RedStep * (j + 1) + RedStep * 220;
    assert GreenStep * (j + 220 + 1) == GreenStep * (j + 1) + GreenStep * 220;
    assert BlueStep * (j + 220 + 1) == BlueStep * (j + 1) + BlueStep * 220;
    ModMultiple(RedStep * (j + 1), RedStep);
    ModMultiple(GreenStep + GreenStep * (j + 1), GreenStep);
    ModMultiple(2 * BlueStep + BlueStep * (j + 1), BlueStep);
  }

  lemma ModMultiple(a: int, s: int)
    ensures (a + s * 220) % ColourRange == a % ColourRange
  {
    var q := a / ColourRange;
    assert a == q * ColourRange + a % ColourRange;
    assert a + s * 220 == (q + s) * ColourRange + a % ColourRange;
  }
}
