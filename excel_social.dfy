/** The social-security routine of script.py: AHV plus ALV on the whole
    gross salary (ALV dropped entirely above the ceiling), and an
    age-banded BVG on a fixed coordinated salary, split evenly between
    employee and employer. */
module ExcelSocial {
  import opened PyValues

  /** `AHV`, `ALV` and `ALV_CEIL`, read from the social-security sheet. */
  datatype SocConstants = SocConstants(ahv: real, alv: real, alvCeiling: real)

  /** An age band `(lo, hi)` and its BVG rate. */
  datatype Band = Band(lo: real, hi: real, rate: real)

  /** The bands in the order the dictionary lists them. */
  const Bands: seq<Band> := [Band(25.0, 34.0, 0.07), Band(35.0, 44.0, 0.10),
                             Band(45.0, 54.0, 0.15), Band(55.0, 65.0, 0.18)]

  /** The fixed maximum and coordination deduction of the insured salary. */
  const MaxInsured: real := 90720.0
  const CoordDeduction: real := 26460.0

  function InBand(age: real): Band -> bool
  {
    (b: Band) => b.lo <= age <= b.hi
  }

  /** The rate the band loop settles on: the first band holding the age, or
      None when the loop ends without assigning `bvg_rate`. Ages between
      bands (34.5, say) hold no band. */
  function BvgRate(age: real): Option<real>
  {
    var k := FirstIndex(Bands, InBand(age));
    if k < |Bands| then Some(Bands[k].rate) else None
  }

  /** The rate is 7, 10, 15 or 18 % for ages 25-34, 35-44, 45-54 and
      55-65, and there is none for any other age. */
  lemma BvgRateByAge(age: real)
    ensures 25.0 <= age <= 34.0 ==> BvgRate(age) == Some(0.07)
    ensures 35.0 <= age <= 44.0 ==> BvgRate(age) == Some(0.10)
    ensures 45.0 <= age <= 54.0 ==> BvgRate(age) == Some(0.15)
    ensures 55.0 <= age <= 65.0 ==> BvgRate(age) == Some(0.18)
    ensures BvgRate(age).None? <==> !(25.0 <= age <= 34.0 || 35.0 <= age <= 44.0
                                      || 45.0 <= age <= 54.0 || 55.0 <= age <= 65.0)
  {
    var k := FirstIndex(Bands, InBand(age));
    if k < |Bands| {
      assert InBand(age)(Bands[k]);
    } else {
      assert forall j :: 0 <= j < |Bands| ==> !InBand(age)(Bands[j]);
    }
  }

  /** `max(0, min(gross, 90720) - 26460)`. */
  function Insured(gross: real): (r: real)
    ensures 0.0 <= r <= MaxInsured - CoordDeduction
    ensures gross <= CoordDeduction ==> r == 0.0
    ensures gross >= MaxInsured ==> r == MaxInsured - CoordDeduction
    ensures CoordDeduction < gross <= MaxInsured ==> r == gross - CoordDeduction
  {
    Max(0.0, Min(gross, MaxInsured) - CoordDeduction)
  }

  /** The AHV+ALV rate of one side: both shares up to the ceiling, only AHV
      above it. */
  function SideRate(soc: SocConstants, gross: real): real
  {
    if gross > soc.alvCeiling then soc.ahv + soc.alv - soc.alv else soc.ahv + soc.alv
  }

  /** The BVG part of one side. */
  function BvgPart(gross: real, rate: real): real
  {
    Insured(gross) * rate / 2.0
  }

  /** The returned pair `(ee, er)`. */
  datatype SocialPair = SocialPair(employee: real, employer: real)

  /** What `social(gross, age)` returns: each side pays its rate on the
      gross plus half the BVG rate on the insured salary; an age in no band
      is an UnboundLocalError. */
  function SocialSpec(soc: SocConstants, gross: real, age: real): (r: Result<SocialPair>)
    ensures r.Err? <==> BvgRate(age).None?
    ensures r.Err? ==> r.error == UnboundLocal
    ensures r.Ok? ==> r.value.employee == r.value.employer
  {
    match BvgRate(age)
    case None => Err(UnboundLocal)
    case Some(rate) => Ok(SocialPair(SidePay(soc, gross, rate), SidePay(soc, gross, rate)))
  }

  /** What one side pays: its rate on the gross plus its BVG part. */
  function SidePay(soc: SocConstants, gross: real, rate: real): real
  {
    gross * SideRate(soc, gross) + BvgPart(gross, rate)
  }

  /** The amounts `social` computes in the band it found are SocialSpec's. */
  lemma SocialOk(soc: SocConstants, gross: real, age: real, rate: real, eeRate: real, erRate: real,
                 insured: real, eeBvg: real, erBvg: real)
    requires BvgRate(age) == Some(rate)
    requires eeRate == SideRate(soc, gross) && erRate == eeRate
    requires insured == Max(0.0, Min(gross, MaxInsured) - CoordDeduction)
    requires eeBvg == insured * rate / 2.0 && erBvg == eeBvg
    ensures SocialSpec(soc, gross, age) == Ok(SocialPair(gross * eeRate + eeBvg, gross * erRate + erBvg))
  {
    SocialSpecInBand(soc, gross, age);
    BvgPartOf(gross, rate, insured, eeBvg);
    SidePayOf(soc, gross, rate, eeRate, eeBvg);
    SidePayOf(soc, gross, rate, erRate, erBvg);
  }

  lemma SocialSpecInBand(soc: SocConstants, gross: real, age: real)
    requires BvgRate(age).Some?
    ensures SocialSpec(soc, gross, age)
            == Ok(SocialPair(SidePay(soc, gross, BvgRate(age).value), SidePay(soc, gross, BvgRate(age).value)))
  {
  }

  lemma BvgPartOf(gross: real, rate: real, insured: real, bvg: real)
    requires insured == Max(0.0, Min(gross, MaxInsured) - CoordDeduction)
    requires bvg == insured * rate / 2.0
    ensures bvg == BvgPart(gross, rate)
  {
  }

  lemma SidePayOf(soc: SocConstants, gross: real, rate: real, sideRate: real, bvg: real)
    requires sideRate == SideRate(soc, gross) && bvg == BvgPart(gross, rate)
    ensures gross * sideRate + bvg == SidePay(soc, gross, rate)
  {
  }

  /** `social`: the rates start at AHV + ALV and lose ALV above the
      ceiling; the band loop assigns the rate of the first band holding the
      age and breaks. */
  method Social(soc: SocConstants, gross: real, age: real) returns (r: Result<SocialPair>)
    ensures r == SocialSpec(soc, gross, age)
  {
    var eeRate := soc.ahv + soc.alv;
    var erRate := soc.ahv + soc.alv;
    if gross > soc.alvCeiling {
      eeRate := eeRate - soc.alv;
      erRate := erRate - soc.alv;
    }
    var bvgRate: Option<real> := None;
    var i := 0;
    while i < |Bands|
      invariant 0 <= i <= |Bands|
      invariant bvgRate.None?
      invariant forall j :: 0 <= j < i ==> !InBand(age)(Bands[j])
    {
      if Bands[i].lo <= age <= Bands[i].hi {
        bvgRate := Some(Bands[i].rate);
        break;
      }
      i := i + 1;
    }
    FirstIndexUnique(Bands, InBand(age), i);
    assert bvgRate == BvgRate(age);
    assert eeRate == SideRate(soc, gross) && erRate == eeRate;
    var insured := Max(0.0, Min(gross, MaxInsured) - CoordDeduction);
    match bvgRate
    case None =>
      r := Err(UnboundLocal);
    case Some(rate) =>
      var eeBvg := insured * rate / 2.0;
      var erBvg := eeBvg;
      r := Ok(SocialPair(gross * eeRate + eeBvg, gross * erRate + erBvg));
      SocialOk(soc, gross, age, rate, eeRate, erRate, insured, eeBvg, erBvg);
  }

  /** Up to the ceiling each side pays AHV and ALV on the gross; above it,
      ALV is left out for the whole gross, not just the part above the
      ceiling. */
  lemma AlvByCeiling(soc: SocConstants, gross: real, age: real)
    requires BvgRate(age).Some?
    ensures gross <= soc.alvCeiling
            ==> SocialSpec(soc, gross, age).value.employee
                == gross * (soc.ahv + soc.alv) + BvgPart(gross, BvgRate(age).value)
    ensures gross > soc.alvCeiling
            ==> SocialSpec(soc, gross, age).value.employee
                == gross * soc.ahv + BvgPart(gross, BvgRate(age).value)
  {
    SocialSpecInBand(soc, gross, age);
    SidePayByCeiling(soc, gross, BvgRate(age).value);
  }

  lemma SidePayByCeiling(soc: SocConstants, gross: real, rate: real)
    ensures gross <= soc.alvCeiling ==> SidePay(soc, gross, rate) == gross * (soc.ahv + soc.alv) + BvgPart(gross, rate)
    ensures gross > soc.alvCeiling ==> SidePay(soc, gross, rate) == gross * soc.ahv + BvgPart(gross, rate)
  {
    if gross > soc.alvCeiling {
      SidePayOf(soc, gross, rate, soc.ahv, BvgPart(gross, rate));
    } else {
      SidePayOf(soc, gross, rate, soc.ahv + soc.alv, BvgPart(gross, rate));
    }
  }

  /** Crossing the ceiling costs a side the ALV share on the whole gross:
      just above it the amount is that of the full rate less ALV times the
      gross. */
  lemma AlvDroppedOnWholeGross(soc: SocConstants, gross: real, age: real)
    requires BvgRate(age).Some?
    requires gross > soc.alvCeiling
    ensures SocialSpec(soc, gross, age).value.employee
            == gross * (soc.ahv + soc.alv) + BvgPart(gross, BvgRate(age).value) - gross * soc.alv
  {
    AlvByCeiling(soc, gross, age);
    Distribute(gross, soc.ahv, soc.alv);
  }

  /** There is no entry threshold: any salary above the coordination
      deduction, at an age in a band, carries BVG. */
  lemma NoEntryThreshold(gross: real, age: real)
    requires BvgRate(age).Some?
    requires gross > CoordDeduction
    ensures BvgPart(gross, BvgRate(age).value) > 0.0
  {
    var rate := BvgRate(age).value;
    var insured := Max(0.0, Min(gross, MaxInsured) - CoordDeduction);
    BvgRateByAge(age);
    assert insured > 0.0 && rate > 0.0;
    assert insured * rate > 0.0;
  }
}
