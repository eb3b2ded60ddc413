/**
 * The preset entry points of filters.py: the five film-stock filters, which
 * build their tables on first use and keep them in module-level globals, and
 * the custom warm filter, which builds its tables on every call.
 */
module Filters {
  import opened ToneCurve
  import opened Wrappers
  import opened FilmPresets
  import opened LutApply

  /**
   * The five module-level globals lut_kodak_portra … lut_fujifilm_provia_100f.
   * Each starts as None, is set to its preset's tables by the first call of
   * its filter, and keeps that value afterwards.
   */
  class PresetCache {
    var portra: Option<LutSet>
    var velvia: Option<LutSet>
    var cinestill: Option<LutSet>
    var ektar: Option<LutSet>
    var provia: Option<LutSet>

    /** A global that has been set holds exactly its preset's tables. */
    ghost predicate Valid()
      reads this
    {
      && (portra.Some? ==> portra.value == Tables(KodakPortra400))
      && (velvia.Some? ==> velvia.value == Tables(FujifilmVelvia50))
      && (cinestill.Some? ==> cinestill.value == Tables(Cinestill800T))
      && (ektar.Some? ==> ektar.value == Tables(KodakEktar100))
      && (provia.Some? ==> provia.value == Tables(FujifilmProvia100F))
    }

    /** Module load: every global is None. */
    constructor ()
      ensures Valid()
      ensures portra == None && velvia == None && cinestill == None && ektar == None && provia == None
    {
      portra, velvia, cinestill, ektar, provia := None, None, None, None, None;
    }

    /** apply_kodak_portra */
    method ApplyKodakPortra(img: Image) returns (res: Result<Image, Error>)
      requires Valid() && img.Valid()
      modifies this
      ensures Valid()
      ensures portra == Some(Tables(KodakPortra400))
      ensures old(portra).Some? ==> portra == old(portra)
      ensures velvia == old(velvia) && cinestill == old(cinestill) && ektar == old(ektar) && provia == old(provia)
      ensures res == ApplyLut(img, portra.value.r, portra.value.g, portra.value.b)
    {
      if portra.None? {
        portra := Some(Tables(KodakPortra400));
      }
      var t := portra.value;
      res := ApplyLut(img, t.r, t.g, t.b);
    }

    /** apply_fujifilm_velvia */
    method ApplyFujifilmVelvia(img: Image) returns (res: Result<Image, Error>)
      requires Valid() && img.Valid()
      modifies this
      ensures Valid()
      ensures velvia == Some(Tables(FujifilmVelvia50))
      ensures old(velvia).Some? ==> velvia == old(velvia)
      ensures portra == old(portra) && cinestill == old(cinestill) && ektar == old(ektar) && provia == old(provia)
      ensures res == ApplyLut(img, velvia.value.r, velvia.value.g, velvia.value.b)
    {
      if velvia.None? {
        velvia := Some(Tables(FujifilmVelvia50));
      }
      var t := velvia.value;
      res := ApplyLut(img, t.r, t.g, t.b);
    }

    /** apply_cinestill_800t */
    method ApplyCinestill800T(img: Image) returns (res: Result<Image, Error>)
      requires Valid() && img.Valid()
      modifies this
      ensures Valid()
      ensures cinestill == Some(Tables(Cinestill800T))
      ensures old(cinestill).Some? ==> cinestill == old(cinestill)
      ensures portra == old(portra) && velvia == old(velvia) && ektar == old(ektar) && provia == old(provia)
      ensures res == ApplyLut(img, cinestill.value.r, cinestill.value.g, cinestill.value.b)
    {
      if cinestill.None? {
        cinestill := Some(Tables(Cinestill800T));
      }
      var t := cinestill.value;
      res := ApplyLut(img, t.r, t.g, t.b);
    }

    /** apply_kodak_ektar_100 */
    method ApplyKodakEktar100(img: Image) returns (res: Result<Image, Error>)
      requires Valid() && img.Valid()
      modifies this
      ensures Valid()
      ensures ektar == Some(Tables(KodakEktar100))
      ensures old(ektar).Some? ==> ektar == old(ektar)
      ensures portra == old(portra) && velvia == old(velvia) && cinestill == old(cinestill) && provia == old(provia)
      ensures res == ApplyLut(img, ektar.value.r, ektar.value.g, ektar.value.b)
    {
      if ektar.None? {
        ektar := Some(Tables(KodakEktar100));
      }
      var t := ektar.value;
      res := ApplyLut(img, t.r, t.g, t.b);
    }

    /** apply_fujifilm_provia_100f */
    method ApplyFujifilmProvia100F(img: Image) returns (res: Result<Image, Error>)
      requires Valid() && img.Valid()
      modifies this
      ensures Valid()
      ensures provia == Some(Tables(FujifilmProvia100F))
      ensures old(provia).Some? ==> provia == old(provia)
      ensures portra == old(portra) && velvia == old(velvia) && cinestill == old(cinestill) && ektar == old(ektar)
      ensures res == ApplyLut(img, provia.value.r, provia.value.g, provia.value.b)
    {
      if provia.None? {
        provia := Some(Tables(FujifilmProvia100F));
      }
      var t := provia.value;
      res := ApplyLut(img, t.r, t.g, t.b);
    }
  }

  /**
   * Applying the Portra filter twice to the same image gives the same result
   * both times, whether or not the tables were cached before the first call.
   */
  method PortraIsRepeatable(cache: PresetCache, img: Image) returns (first: Result<Image, Error>, second: Result<Image, Error>)
    requires cache.Valid() && img.Valid()
    modifies cache
    ensures cache.Valid() && first == second
    ensures cache.portra == Some(Tables(KodakPortra400))
  {
    first := cache.ApplyKodakPortra(img);
    second := cache.ApplyKodakPortra(img);
  }

  /**
   * apply_custom_filter: the warm tables applied to the image. A three-channel
   * image comes back with every red sample raised (by 20, up to 255), every
   * green sample unchanged and every blue sample lowered (by 20, down to 0).
   */
  function ApplyCustomFilter(img: Image): (res: Result<Image, Error>)
    requires img.Valid()
    ensures res.Success? <==> img.channels == 3
    ensures res.Failure? ==> res.error == UnpackMismatch(3, img.channels)
    ensures res.Success? ==>
      && res.value.Valid()
      && res.value.height == img.height && res.value.width == img.width && res.value.channels == 3
      && forall y, x :: 0 <= y < img.height && 0 <= x < img.width ==>
           && res.value.samples[y][x][0] == (var s: int := img.samples[y][x][0]; if s + 20 > 255 then 255 else s + 20)
           && res.value.samples[y][x][1] == img.samples[y][x][1]
           && res.value.samples[y][x][2] == (if img.samples[y][x][2] < 20 then 0 else img.samples[y][x][2] - 20)
  {
    var t := CreateWarmLut();
    WarmEntries();
    ApplyLut(img, t.r, t.g, t.b)
  }

  /**
   * The Portra filter leaves the red channel of a three-channel image as it
   * was: its red table is the identity.
   */
  lemma PortraKeepsRed(img: Image)
    requires img.Valid() && img.channels == 3
    ensures var t := Tables(KodakPortra400);
      var res := ApplyLut(img, t.r, t.g, t.b);
      res.Success? && forall y, x :: 0 <= y < img.height && 0 <= x < img.width ==>
        res.value.samples[y][x][0] == img.samples[y][x][0]
  {
    forall i | 0 <= i < TableSize ensures Tables(KodakPortra400).r[i] == i {
      PortraEntries(i);
    }
  }
}
