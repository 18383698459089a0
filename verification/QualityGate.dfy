/** The verify agent's quality gate: what is measured in the sandbox, the tier list it is
    reported as, and the one bit that lets a task reach PENDING_APPROVAL. */
module QualityGate {
  import opened Wrappers

  const COVERAGE_FAIL_THRESHOLD: real := -0.05

  datatype Tests = Tests(passed: nat, failed: nat, errors: nat, skipped: nat, sectionBlank: bool) {
    function Total(): nat { passed + failed + errors + skipped }
    predicate Ok() { failed == 0 && errors == 0 && !sectionBlank }
  }

  /** What the sandbox run of a patched workspace reports. Failure lists are sorted and duplicate free. */
  datatype Measured = Measured(
    timedOut: bool, applyOk: bool, lintOk: bool, tests: Tests,
    failedBefore: seq<string>, failedAfter: seq<string>,
    coverageBefore: Option<real>, coverageAfter: Option<real>)

  datatype TierName = Prescan | ApplyCheck | Lint | UnitTest | RegressionTier | Coverage

  datatype Tier = Tier(name: TierName, ok: bool)

  datatype VerifyEvidence = VerifyEvidence(
    patchVersion: nat, patchHash: string, preScanOk: bool, applyOk: bool, lintOk: bool, testsOk: bool,
    regressionOk: bool, coverageDelta: Option<real>, testGap: bool, tiers: seq<Tier>, sufficient: bool)

  /** Tests that failed before the patch and still fail after it. */
  function Remaining(m: Measured): set<string> {
    (set t | t in m.failedBefore) * (set t | t in m.failedAfter)
  }

  predicate RegressionOk(m: Measured) {
    |m.failedBefore| == 0 || |Remaining(m)| == 0
  }

  function CoverageDelta(m: Measured): Option<real> {
    if m.coverageBefore.Some? && m.coverageAfter.Some?
    then Some(m.coverageAfter.value - m.coverageBefore.value) else None
  }

  predicate CoverageOk(delta: Option<real>) {
    delta.None? || delta.value > COVERAGE_FAIL_THRESHOLD
  }

  predicate IsTestGap(m: Measured) {
    m.tests.Total() == 0 || (m.coverageAfter.Some? && m.coverageAfter.value <= 0.0)
  }

  function Tiers(m: Measured): seq<Tier> {
    [Tier(Prescan, true), Tier(ApplyCheck, m.applyOk), Tier(Lint, m.lintOk), Tier(UnitTest, m.tests.Ok()),
     Tier(RegressionTier, RegressionOk(m)), Tier(Coverage, CoverageOk(CoverageDelta(m)))]
    + if IsTestGap(m) then [Tier(Coverage, false)] else []
  }

  predicate Sufficient(e: VerifyEvidence, timedOut: bool) {
    if timedOut then false
    else if !e.applyOk || !e.lintOk || !e.testsOk then false
    else if !e.regressionOk then false
    else if e.coverageDelta.Some? && e.coverageDelta.value <= COVERAGE_FAIL_THRESHOLD then false
    else !e.testGap
  }

  /** The evidence the verify agent returns for a candidate; a blocked pre-scan never enters the sandbox. */
  function Assess(patchVersion: nat, patchHash: string, preScanOk: bool, m: Measured): VerifyEvidence {
    if !preScanOk then
      VerifyEvidence(patchVersion, patchHash, false, false, false, false, false, None, true, [Tier(Prescan, false)], false)
    else
      var draft := VerifyEvidence(patchVersion, patchHash, true, m.applyOk, m.lintOk, m.tests.Ok(), RegressionOk(m),
                                  CoverageDelta(m), IsTestGap(m), Tiers(m), false);
      draft.(sufficient := Sufficient(draft, m.timedOut))
  }

  predicate AllTiersPass(e: VerifyEvidence) {
    forall i :: 0 <= i < |e.tiers| ==> e.tiers[i].ok
  }

  /** The gate bit and the tier list shown to people never disagree, except that a run that
      timed out is refused even with every tier green. */
  lemma GateAgreesWithTiers(patchVersion: nat, patchHash: string, preScanOk: bool, m: Measured)
    ensures var e := Assess(patchVersion, patchHash, preScanOk, m);
            e.sufficient <==> AllTiersPass(e) && !(preScanOk && m.timedOut)
  {
    var e := Assess(patchVersion, patchHash, preScanOk, m);
    if preScanOk {
      var t := e.tiers;
      assert t[0] == Tier(Prescan, true) && t[1] == Tier(ApplyCheck, m.applyOk) && t[2] == Tier(Lint, m.lintOk);
      assert t[3] == Tier(UnitTest, m.tests.Ok()) && t[4] == Tier(RegressionTier, RegressionOk(m));
      assert t[5] == Tier(Coverage, CoverageOk(CoverageDelta(m)));
      if IsTestGap(m) {
        assert t[6] == Tier(Coverage, false);
      }
    } else {
      assert !e.tiers[0].ok;
    }
  }

  /** A measurement that opens the gate. */
  predicate Sound(m: Measured) {
    && !m.timedOut && m.applyOk && m.lintOk
    && m.tests.failed == 0 && m.tests.errors == 0 && m.tests.passed + m.tests.skipped > 0
    && (forall t :: t in m.failedBefore ==> t !in m.failedAfter)
    && (m.coverageAfter.Some? ==> m.coverageAfter.value > 0.0)
    && (m.coverageBefore.Some? && m.coverageAfter.Some? ==> m.coverageAfter.value > m.coverageBefore.value - 0.05)
  }

  /** The evidence is the verify agent's account of some measurement of the patch it names. */
  ghost predicate Assessed(e: VerifyEvidence) {
    exists ok: bool, m: Measured :: e == Assess(e.patchVersion, e.patchHash, ok, m)
  }

  /** What an open gate means for the patched tree: it applied and linted, tests ran and none failed,
      no test that failed before still fails, and coverage neither vanished nor fell by 0.05. */
  lemma OpenGateMeans(patchVersion: nat, patchHash: string, preScanOk: bool, m: Measured)
    requires Assess(patchVersion, patchHash, preScanOk, m).sufficient
    ensures preScanOk && Sound(m)
  {
    if |m.failedBefore| > 0 {
      assert Remaining(m) == {};
      assert forall t :: t in m.failedBefore && t in m.failedAfter ==> t in Remaining(m);
    }
  }

  /** The gate refuses no more than that: it is open exactly for a passed pre-scan, a sound measurement and a test report
      that is not blank. */
  lemma OpenGateIff(patchVersion: nat, patchHash: string, preScanOk: bool, m: Measured)
    ensures Assess(patchVersion, patchHash, preScanOk, m).sufficient <==> preScanOk && Sound(m) && !m.tests.sectionBlank
  {
    if Assess(patchVersion, patchHash, preScanOk, m).sufficient {
      OpenGateMeans(patchVersion, patchHash, preScanOk, m);
    } else if preScanOk && Sound(m) {
      assert Remaining(m) == {} by {
        assert forall t :: t in Remaining(m) ==> t in m.failedBefore && t in m.failedAfter;
      }
    }
  }
}
