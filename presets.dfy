/**
 * The film-stock presets and the custom warm preset of filters.py: each is
 * three tone curves, one per channel, turned into three 256-entry tables.
 */
module FilmPresets {
  import opened ToneCurve

  /** The three curves of one preset, in the order lut_r, lut_g, lut_b. */
  datatype Preset = Preset(r: Curve, g: Curve, b: Curve)

  /** The three built tables (the tuple `lut_r, lut_g, lut_b`). */
  datatype LutSet = LutSet(r: seq<Byte>, g: seq<Byte>, b: seq<Byte>)

  /** R: i;  G: min(255, 0.95·i + 12);  B: min(255, 0.85·i + 20). */
  const KodakPortra400 := Preset(Identity, Curve(19, 20, 12, true, false), Curve(17, 20, 20, true, false))

  /** R: min(255, 0.9·i + 10);  G: min(255, 0.85·i + 20);  B: i. */
  const FujifilmVelvia50 := Preset(Curve(9, 10, 10, true, false), Curve(17, 20, 20, true, false), Identity)

  /** R: min(255, 0.9·i + 20);  G: min(255, 0.85·i + 15);  B: max(0, min(255, 1.1·i − 10)). */
  const Cinestill800T := Preset(Curve(9, 10, 20, true, false), Curve(17, 20, 15, true, false), Curve(11, 10, -10, true, true))

  /** R: min(255, 1.1·i);  G: min(255, 0.95·i);  B: max(0, min(255, 0.9·i + 10)). */
  const KodakEktar100 := Preset(Curve(11, 10, 0, true, false), Curve(19, 20, 0, true, false), Curve(9, 10, 10, true, true))

  /** R: min(255, 1.05·i);  G: min(255, 0.95·i + 10);  B: max(0, min(255, 1.1·i − 20)). */
  const FujifilmProvia100F := Preset(Curve(21, 20, 0, true, false), Curve(19, 20, 10, true, false), Curve(11, 10, -20, true, true))

  /** R: min(255, i + 20);  G: i;  B: max(0, i − 20). */
  const CustomWarm := Preset(Curve(1, 1, 20, true, false), Identity, Curve(1, 1, -20, false, true))

  predicate Buildable(p: Preset) {
    WellFormed(p.r) && WellFormed(p.g) && WellFormed(p.b)
  }

  /** Builds the three tables of a preset. */
  function Tables(p: Preset): (t: LutSet)
    requires Buildable(p)
    ensures |t.r| == TableSize && |t.g| == TableSize && |t.b| == TableSize
  {
    LutSet(BuildLut(p.r), BuildLut(p.g), BuildLut(p.b))
  }

  /** create_warm_lut: the warm tables, built afresh on every call. */
  function CreateWarmLut(): (t: LutSet)
    ensures |t.r| == TableSize && |t.g| == TableSize && |t.b| == TableSize
  {
    Tables(CustomWarm)
  }

  /** Every table of every preset is non-decreasing in its index. */
  lemma PresetNonDecreasing(p: Preset)
    requires Buildable(p)
    ensures NonDecreasing(Tables(p).r) && NonDecreasing(Tables(p).g) && NonDecreasing(Tables(p).b)
  {
    BuildLutNonDecreasing(p.r);
    BuildLutNonDecreasing(p.g);
    BuildLutNonDecreasing(p.b);
  }

  /** All six presets can be built: each entry of each table lies in 0..255. */
  lemma AllPresetsBuildable()
    ensures Buildable(KodakPortra400) && Buildable(FujifilmVelvia50) && Buildable(Cinestill800T)
    ensures Buildable(KodakEktar100) && Buildable(FujifilmProvia100F) && Buildable(CustomWarm)
  {
  }

  // ---------------------------------------------------------------------
  // Kodak Portra 400

  /**
   * Portra keeps red, and its green and blue are the floors of 0.95·i + 12
   * and 0.85·i + 20; neither reaches 255, so its min(255, ·) never engages.
   */
  lemma PortraEntries(i: int)
    requires 0 <= i < TableSize
    ensures Tables(KodakPortra400).r[i] == i
    ensures Tables(KodakPortra400).g[i] == (19 * i + 240) / 20 < 255
    ensures Tables(KodakPortra400).b[i] == (17 * i + 400) / 20 < 255
  {
    var p := KodakPortra400;
    EntryIsClampOfFloor(p.g, i);
    EntryIsClampOfFloor(p.b, i);
    NeverSaturates(p.g, i);
    NeverSaturates(p.b, i);
  }

  /** Input 200 maps to (200, 202, 190). */
  lemma PortraAt200()
    ensures Tables(KodakPortra400).r[200] == 200
    ensures Tables(KodakPortra400).g[200] == 202
    ensures Tables(KodakPortra400).b[200] == 190
  {
    PortraEntries(200);
  }

  /** Green at 1 is 0.95 + 12 = 12.95, narrowed to 12: truncation, not rounding. */
  lemma PortraGreenTruncates()
    ensures Tables(KodakPortra400).g[1] == 12
  {
    PortraEntries(1);
  }

  // ---------------------------------------------------------------------
  // Fujifilm Velvia 50

  /** Velvia lifts red and green by affine curves that never saturate, and keeps blue. */
  lemma VelviaEntries(i: int)
    requires 0 <= i < TableSize
    ensures Tables(FujifilmVelvia50).r[i] == (9 * i + 100) / 10 < 255
    ensures Tables(FujifilmVelvia50).g[i] == (17 * i + 400) / 20 < 255
    ensures Tables(FujifilmVelvia50).b[i] == i
  {
    var p := FujifilmVelvia50;
    EntryIsClampOfFloor(p.r, i);
    EntryIsClampOfFloor(p.g, i);
    NeverSaturates(p.r, i);
    NeverSaturates(p.g, i);
  }

  // ---------------------------------------------------------------------
  // Cinestill 800T

  /** Cinestill blue is crushed to 0 exactly for the inputs 0..9. */
  lemma CinestillBlueZeroIff(i: int)
    requires 0 <= i < TableSize
    ensures Tables(Cinestill800T).b[i] == 0 <==> i <= 9
  {
    EntryZeroIff(Cinestill800T.b, i);
  }

  /** Cinestill blue saturates at 255 exactly for the inputs 241..255. */
  lemma CinestillBlueSaturatesIff(i: int)
    requires 0 <= i < TableSize
    ensures Tables(Cinestill800T).b[i] == 255 <==> i >= 241
  {
    EntrySaturatesIff(Cinestill800T.b, i);
  }

  /**
   * Cinestill red and green are the floors of 0.9·i + 20 and 0.85·i + 15 and
   * never reach 255; blue is clamp(floor(1.1·i − 10), 0, 255).
   */
  lemma CinestillEntries(i: int)
    requires 0 <= i < TableSize
    ensures Tables(Cinestill800T).r[i] == (9 * i + 200) / 10 < 255
    ensures Tables(Cinestill800T).g[i] == (17 * i + 300) / 20 < 255
    ensures Tables(Cinestill800T).b[i] == ClampByte((11 * i - 100) / 10)
  {
    var p := Cinestill800T;
    EntryIsClampOfFloor(p.r, i);
    EntryIsClampOfFloor(p.g, i);
    EntryIsClampOfFloor(p.b, i);
    NeverSaturates(p.r, i);
    NeverSaturates(p.g, i);
  }

  // ---------------------------------------------------------------------
  // Kodak Ektar 100

  /**
   * Ektar red is min(255, floor(1.1·i)); green and blue are the floors of
   * 0.95·i and 0.9·i + 10 and never reach 255.
   */
  lemma EktarEntries(i: int)
    requires 0 <= i < TableSize
    ensures Tables(KodakEktar100).r[i] == ClampByte(11 * i / 10)
    ensures Tables(KodakEktar100).g[i] == 19 * i / 20 < 255
    ensures Tables(KodakEktar100).b[i] == (9 * i + 100) / 10 < 255
  {
    var p := KodakEktar100;
    EntryIsClampOfFloor(p.r, i);
    EntryIsClampOfFloor(p.g, i);
    EntryIsClampOfFloor(p.b, i);
    NeverSaturates(p.g, i);
    NeverSaturates(p.b, i);
  }

  /** Ektar red is 0 only at input 0. */
  lemma EktarRedZeroIff(i: int)
    requires 0 <= i < TableSize
    ensures Tables(KodakEktar100).r[i] == 0 <==> i == 0
  {
    EktarEntries(i);
  }

  /** Ektar green is 0 exactly for the inputs 0 and 1: 0.95 truncates to 0. */
  lemma EktarGreenZeroIff(i: int)
    requires 0 <= i < TableSize
    ensures Tables(KodakEktar100).g[i] == 0 <==> i <= 1
  {
    EktarEntries(i);
  }

  /** Ektar red saturates at 255 exactly for the inputs 232..255. */
  lemma EktarRedSaturatesIff(i: int)
    requires 0 <= i < TableSize
    ensures Tables(KodakEktar100).r[i] == 255 <==> i >= 232
  {
    EntrySaturatesIff(KodakEktar100.r, i);
  }

  /** The max(0, ·) around Ektar blue is redundant: dropping it changes no entry. */
  lemma EktarBlueFloorRedundant(i: int)
    requires 0 <= i < TableSize
    ensures WellFormed(KodakEktar100.b.(floorLow := false))
    ensures Tables(KodakEktar100).b[i] == Entry(KodakEktar100.b.(floorLow := false), i)
  {
    var c := KodakEktar100.b;
    EntryIsClampOfFloor(c, i);
    EntryIsClampOfFloor(c.(floorLow := false), i);
  }

  // ---------------------------------------------------------------------
  // Fujifilm Provia 100F

  /**
   * Provia red is min(255, floor(1.05·i)); green is the floor of 0.95·i + 10
   * and never reaches 255; blue is clamp(floor(1.1·i − 20), 0, 255).
   */
  lemma ProviaEntries(i: int)
    requires 0 <= i < TableSize
    ensures Tables(FujifilmProvia100F).r[i] == ClampByte(21 * i / 20)
    ensures Tables(FujifilmProvia100F).g[i] == (19 * i + 200) / 20 < 255
    ensures Tables(FujifilmProvia100F).b[i] == ClampByte((11 * i - 200) / 10)
  {
    var p := FujifilmProvia100F;
    EntryIsClampOfFloor(p.r, i);
    EntryIsClampOfFloor(p.g, i);
    EntryIsClampOfFloor(p.b, i);
    NeverSaturates(p.g, i);
  }

  /** Provia red is 0 only at input 0. */
  lemma ProviaRedZeroIff(i: int)
    requires 0 <= i < TableSize
    ensures Tables(FujifilmProvia100F).r[i] == 0 <==> i == 0
  {
    ProviaEntries(i);
  }

  /** Provia red saturates at 255 exactly for the inputs 243..255. */
  lemma ProviaRedSaturatesIff(i: int)
    requires 0 <= i < TableSize
    ensures Tables(FujifilmProvia100F).r[i] == 255 <==> i >= 243
  {
    EntrySaturatesIff(FujifilmProvia100F.r, i);
  }

  /** Provia blue is crushed to 0 exactly for the inputs 0..19. */
  lemma ProviaBlueZeroIff(i: int)
    requires 0 <= i < TableSize
    ensures Tables(FujifilmProvia100F).b[i] == 0 <==> i <= 19
  {
    EntryZeroIff(FujifilmProvia100F.b, i);
  }

  /** Provia blue saturates at 255 exactly for the inputs 250..255. */
  lemma ProviaBlueSaturatesIff(i: int)
    requires 0 <= i < TableSize
    ensures Tables(FujifilmProvia100F).b[i] == 255 <==> i >= 250
  {
    EntrySaturatesIff(FujifilmProvia100F.b, i);
  }

  // ---------------------------------------------------------------------
  // Custom warm

  /**
   * Warm shifts red up by 20 (capped at 255), keeps green, and shifts blue
   * down by 20 (floored at 0), at every index.
   */
  lemma WarmEntries()
    ensures forall i :: 0 <= i < TableSize ==>
      && CreateWarmLut().r[i] == (if i + 20 > 255 then 255 else i + 20) >= i
      && CreateWarmLut().g[i] == i
      && CreateWarmLut().b[i] == (if i < 20 then 0 else i - 20) <= i
  {
    forall i | 0 <= i < TableSize
      ensures CreateWarmLut().r[i] == (if i + 20 > 255 then 255 else i + 20) >= i
      ensures CreateWarmLut().g[i] == i
      ensures CreateWarmLut().b[i] == (if i < 20 then 0 else i - 20) <= i
    {
      EntryIsClampOfFloor(CustomWarm.r, i);
      EntryIsClampOfFloor(CustomWarm.b, i);
    }
  }

  /** Warm red saturates at 255 exactly for the inputs 235..255. */
  lemma WarmRedSaturatesIff(i: int)
    requires 0 <= i < TableSize
    ensures CreateWarmLut().r[i] == 255 <==> i >= 235
  {
    EntrySaturatesIff(CustomWarm.r, i);
  }

  /** Warm blue is 0 exactly for the inputs 0..20. */
  lemma WarmBlueZeroIff(i: int)
    requires 0 <= i < TableSize
    ensures CreateWarmLut().b[i] == 0 <==> i <= 20
  {
    EntryZeroIff(CustomWarm.b, i);
  }
}
