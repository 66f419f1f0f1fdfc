/** The social-security block of app.py: AHV/IV/EO, ALV with a fixed 0.5 %
    solidarity part above the ceiling, and BVG for the 35-44 age band,
    computed for the employer and for the employee. */
module SocialSecurity {
  import opened PyValues

  /** The constants read from the social-security table. */
  datatype SocialConfig = SocialConfig(
    ahvEmployer: real,        // AHV_IV_EO_EmployerShare
    ahvEmployee: real,        // AHV_IV_EO_EmployeeShare
    alvEmployer: real,        // ALV_EmployerShare
    alvEmployee: real,        // ALV_EmployeeShare
    alvCeiling: real,         // ALV_Ceiling
    bvgRateTotal: real,       // BVG_Rate_35_44
    bvgEntryThreshold: real,  // BVG_EntryThreshold
    bvgCoordDeduction: real,  // BVG_CoordDeduction
    bvgMaxInsured: real)      // BVG_MaxInsuredSalary

  /** The solidarity rate charged on salary above the ALV ceiling. */
  const Solidarity: real := 0.005

  /** The BVG total rate is split evenly between the two sides. */
  function BvgHalfRate(c: SocialConfig): (r: real)
    ensures r + r == c.bvgRateTotal
  {
    c.bvgRateTotal / 2.0
  }

  /** The insured salary: the salary capped at the maximum, less the
      coordination deduction, never below 0. */
  function InsuredSalary(c: SocialConfig, salary: real): (r: real)
    ensures r >= 0.0
    ensures r <= Max(0.0, c.bvgMaxInsured - c.bvgCoordDeduction)
    ensures c.bvgCoordDeduction >= 0.0 ==> r <= Max(0.0, salary)
    ensures salary <= c.bvgCoordDeduction ==> r == 0.0
    ensures c.bvgCoordDeduction < salary <= c.bvgMaxInsured ==> r == salary - c.bvgCoordDeduction
    ensures salary >= c.bvgMaxInsured ==> r == Max(0.0, c.bvgMaxInsured - c.bvgCoordDeduction)
  {
    Max(0.0, Min(salary, c.bvgMaxInsured) - c.bvgCoordDeduction)
  }

  /** The BVG contribution of one side: nothing below the entry threshold,
      otherwise half the rate on the insured salary. */
  function Bvg(c: SocialConfig, salary: real): (r: real)
    ensures salary < c.bvgEntryThreshold ==> r == 0.0
  {
    if salary >= c.bvgEntryThreshold then BvgHalfRate(c) * InsuredSalary(c, salary) else 0.0
  }

  /** With a non-negative rate, BVG is never negative. */
  lemma BvgNonNegative(c: SocialConfig, salary: real)
    requires c.bvgRateTotal >= 0.0
    ensures Bvg(c, salary) >= 0.0
  {
    HalfRateOnInsured(c, salary);
  }

  lemma HalfRateOnInsured(c: SocialConfig, salary: real)
    ensures c.bvgRateTotal >= 0.0 ==> 0.0 <= BvgHalfRate(c) * InsuredSalary(c, salary)
  {
    if c.bvgRateTotal >= 0.0 {
      MulMonotone(0.0, InsuredSalary(c, salary), BvgHalfRate(c));
    }
  }

  /** The ALV contribution of one side: its share up to the ceiling plus
      the solidarity rate on the part above it. */
  function Alv(share: real, ceiling: real, salary: real): real
  {
    share * Min(salary, ceiling) + Solidarity * Max(0.0, salary - ceiling)
  }

  /** Up to the ceiling ALV is the share of the salary; above it, the share
      of the ceiling plus 0.5 % of the excess. */
  lemma AlvByCeiling(share: real, ceiling: real, salary: real)
    ensures salary <= ceiling ==> Alv(share, ceiling, salary) == share * salary
    ensures salary > ceiling
            ==> Alv(share, ceiling, salary) == share * ceiling + Solidarity * (salary - ceiling)
  {
  }

  /** One side's contributions, item by item. */
  datatype Contribution = Contribution(ahv: real, alv: real, bvg: real)
  {
    function Total(): real { ahv + alv + bvg }
  }

  function EmployerPart(c: SocialConfig, salary: real): Contribution
  {
    Contribution(c.ahvEmployer * salary, Alv(c.alvEmployer, c.alvCeiling, salary), Bvg(c, salary))
  }

  /** The employee side pays the same BVG amount as the employer (same
      insured salary, same half rate). */
  function EmployeePart(c: SocialConfig, salary: real): (k: Contribution)
    ensures k.bvg == EmployerPart(c, salary).bvg
  {
    var er := EmployerPart(c, salary);
    Contribution(c.ahvEmployee * salary, Alv(c.alvEmployee, c.alvCeiling, salary), er.bvg)
  }

  /** `employer_cost` and `employee_deductions`. */
  datatype Contributions = Contributions(employerCost: real, employeeDeductions: real)

  /** The contributions for the "AHV/ALV contributions apply?" answer:
      both sides' totals for "Yes", nothing at all for "No". */
  function SocialContributions(c: SocialConfig, salary: real, subject: bool): (k: Contributions)
    ensures !subject ==> k.employerCost == 0.0 && k.employeeDeductions == 0.0
    ensures subject ==> k.employerCost == EmployerPart(c, salary).Total()
                        && k.employeeDeductions == EmployeePart(c, salary).Total()
  {
    if subject then Contributions(EmployerPart(c, salary).Total(), EmployeePart(c, salary).Total())
    else Contributions(0.0, 0.0)
  }

  lemma SubDistribute(a: real, b: real, s: real)
    ensures a * s - b * s == (a - b) * s
  {
  }

  lemma AlvDifference(a: real, b: real, ceiling: real, salary: real)
    ensures Alv(a, ceiling, salary) - Alv(b, ceiling, salary) == (a - b) * Min(salary, ceiling)
  {
    var m, e := Min(salary, ceiling), Max(0.0, salary - ceiling);
    SubDistribute(a, b, m);
    assert Alv(a, ceiling, salary) == a * m + Solidarity * e;
    assert Alv(b, ceiling, salary) == b * m + Solidarity * e;
  }

  /** The two sides differ only by the AHV and ALV shares, applied to the
      salary and to the salary up to the ceiling: BVG and the solidarity
      part cancel out. */
  lemma EmployerMinusEmployee(c: SocialConfig, salary: real)
    ensures SocialContributions(c, salary, true).employerCost - SocialContributions(c, salary, true).employeeDeductions
            == (c.ahvEmployer - c.ahvEmployee) * salary
               + (c.alvEmployer - c.alvEmployee) * Min(salary, c.alvCeiling)
  {
    var er, ee := EmployerPart(c, salary), EmployeePart(c, salary);
    SubDistribute(c.ahvEmployer, c.ahvEmployee, salary);
    AlvDifference(c.alvEmployer, c.alvEmployee, c.alvCeiling, salary);
    assert er.ahv - ee.ahv == (c.ahvEmployer - c.ahvEmployee) * salary;
    assert er.alv - ee.alv == (c.alvEmployer - c.alvEmployee) * Min(salary, c.alvCeiling);
    assert er.bvg == ee.bvg;
  }

  /** The shares and rates a real social-security table holds. */
  predicate RatesNonNegative(c: SocialConfig)
  {
    c.ahvEmployer >= 0.0 && c.ahvEmployee >= 0.0 && c.alvEmployer >= 0.0
    && c.alvEmployee >= 0.0 && c.alvCeiling >= 0.0 && c.bvgRateTotal >= 0.0
  }

  lemma AlvNonNegative(share: real, ceiling: real, salary: real)
    requires share >= 0.0 && ceiling >= 0.0 && salary >= 0.0
    ensures Alv(share, ceiling, salary) >= 0.0
  {
    var m, e := Min(salary, ceiling), Max(0.0, salary - ceiling);
    MulNonNegative(share, m);
    assert Alv(share, ceiling, salary) == share * m + Solidarity * e;
  }

  lemma PartNonNegative(ahv: real, alv: real, ceiling: real, c: SocialConfig, salary: real)
    requires ahv >= 0.0 && alv >= 0.0 && ceiling >= 0.0 && salary >= 0.0 && c.bvgRateTotal >= 0.0
    ensures Contribution(ahv * salary, Alv(alv, ceiling, salary), Bvg(c, salary)).Total() >= 0.0
  {
    MulNonNegative(ahv, salary);
    AlvNonNegative(alv, ceiling, salary);
    BvgNonNegative(c, salary);
  }

  /** With non-negative rates and salary neither side is ever negative. */
  lemma ContributionsNonNegative(c: SocialConfig, salary: real, subject: bool)
    requires RatesNonNegative(c)
    requires salary >= 0.0
    ensures SocialContributions(c, salary, subject).employerCost >= 0.0
    ensures SocialContributions(c, salary, subject).employeeDeductions >= 0.0
  {
    if subject {
      PartNonNegative(c.ahvEmployer, c.alvEmployer, c.alvCeiling, c, salary);
      PartNonNegative(c.ahvEmployee, c.alvEmployee, c.alvCeiling, c, salary);
    }
  }

  /** At or above the entry threshold BVG is half the rate on the insured salary. */
  lemma BvgAboveThreshold(c: SocialConfig, salary: real)
    requires salary >= c.bvgEntryThreshold
    ensures Bvg(c, salary) == BvgHalfRate(c) * InsuredSalary(c, salary)
  {
  }

  /** BVG never exceeds half the rate on the band between the coordination
      deduction and the maximum insured salary. */
  lemma BvgBounded(c: SocialConfig, salary: real)
    requires c.bvgRateTotal >= 0.0
    ensures Bvg(c, salary) <= BvgHalfRate(c) * Max(0.0, c.bvgMaxInsured - c.bvgCoordDeduction)
  {
    var cap, half := Max(0.0, c.bvgMaxInsured - c.bvgCoordDeduction), BvgHalfRate(c);
    assert half >= 0.0;
    if salary >= c.bvgEntryThreshold {
      var insured := InsuredSalary(c, salary);
      BvgAboveThreshold(c, salary);
      MulMonotone(insured, cap, half);
    } else {
      MulNonNegative(half, cap);
    }
  }

  lemma AlvMonotone(share: real, ceiling: real, x: real, y: real)
    requires share >= 0.0
    requires x <= y
    ensures Alv(share, ceiling, x) <= Alv(share, ceiling, y)
  {
    var mx, my := Min(x, ceiling), Min(y, ceiling);
    var ex, ey := Max(0.0, x - ceiling), Max(0.0, y - ceiling);
    assert mx <= my && ex <= ey;
    MulMonotone(mx, my, share);
    SumMonotone(share * mx, share * my, Solidarity * ex, Solidarity * ey);
    assert Alv(share, ceiling, x) == share * mx + Solidarity * ex;
    assert Alv(share, ceiling, y) == share * my + Solidarity * ey;
  }

  lemma BvgMonotoneAbove(c: SocialConfig, x: real, y: real)
    requires c.bvgRateTotal >= 0.0
    requires c.bvgEntryThreshold <= x <= y
    ensures Bvg(c, x) <= Bvg(c, y)
  {
    var ix, iy, half := InsuredSalary(c, x), InsuredSalary(c, y), BvgHalfRate(c);
    assert ix <= iy && half >= 0.0;
    MulMonotone(ix, iy, half);
    assert half * ix <= half * iy;
    BvgAboveThreshold(c, x);
    BvgAboveThreshold(c, y);
  }

  lemma BvgMonotone(c: SocialConfig, x: real, y: real)
    requires c.bvgRateTotal >= 0.0
    requires x <= y
    ensures Bvg(c, x) <= Bvg(c, y)
  {
    if x >= c.bvgEntryThreshold {
      BvgMonotoneAbove(c, x, y);
    } else {
      BvgNonNegative(c, y);
    }
  }

  lemma EmployerPartMonotone(c: SocialConfig, x: real, y: real)
    requires RatesNonNegative(c)
    requires x <= y
    ensures EmployerPart(c, x).Total() <= EmployerPart(c, y).Total()
  {
    var kx, ky := EmployerPart(c, x), EmployerPart(c, y);
    MulMonotone(x, y, c.ahvEmployer);
    AlvMonotone(c.alvEmployer, c.alvCeiling, x, y);
    BvgMonotone(c, x, y);
    SumMonotone(kx.ahv, ky.ahv, kx.alv, ky.alv);
    SumMonotone(kx.ahv + kx.alv, ky.ahv + ky.alv, kx.bvg, ky.bvg);
  }

  /** A higher salary never lowers the employer's cost: the BVG entry
      threshold adds a step upwards, never downwards. */
  lemma EmployerCostMonotone(c: SocialConfig, x: real, y: real, subject: bool)
    requires RatesNonNegative(c)
    requires x <= y
    ensures SocialContributions(c, x, subject).employerCost
            <= SocialContributions(c, y, subject).employerCost
  {
    if subject {
      EmployerPartMonotone(c, x, y);
    }
  }
}
