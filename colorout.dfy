/**
 * Profile resolution of the output colour module: `commit_params`,
 * `init_pipe` and `init` in src/iop/colorout.c.
 *
 * A commit tears down the previous transform plan, picks a profile name
 * and rendering intent for the pipe, resolves the name to a profile, and
 * either derives a 3x3 matrix with three tone curves from it (the fast
 * path) or, when that fails, builds one colour-management transform per
 * worker thread (the fallback path).  A plan that is left with neither is
 * replaced by sRGB after a warning.
 *
 * The colour-management library and the profile store are oracles, the
 * fields of `Env`: whether a profile opens, whether a matrix can be derived
 * and whether a transform can be built are their answers, and what they
 * compute is uninterpreted.  Every call with an effect on resources (a
 * profile released, a transform deleted or created) and every warning is
 * recorded, in order, as an `Effect`.
 */
module ColorOut {
  import opened Wrappers
  import opened Lut
  import opened ColorMatrix

  /** The out-of-band first matrix coefficient meaning "no matrix: use the transform". */
  const Sentinel: real := -0.666

  /** Rendering intent DT_INTENT_PERCEPTUAL; the other intents are 1 to 3. */
  const Perceptual: int := 0

  /** The three tone curves, one per output channel. */
  type Curves = s: seq<Curve> | |s| == 3 witness [ZeroCurve, ZeroCurve, ZeroCurve]

  /** Curve memory as allocated, before any derivation writes it (modelled as zeros). */
  const ZeroCurve: Curve := seq(LutSamples, _ => 0.0)

  /** The export pipe, or any other pipe (the full and preview pipes that draw on screen). */
  datatype PipeKind = Export | Display

  /** `dt_iop_colorout_params_t`. */
  datatype Params = Params(iccprofile: string, displayprofile: string, intent: int, displayintent: int)

  /** An opened output profile: one of the built-in ones, or one read from a file or from the X display. */
  datatype Profile = SRgb | LinearRgb | AdobeRgb | Icc(id: nat)

  /** An opaque colour-management transform handle. */
  datatype Handle = Handle(id: nat)

  /** What a successful matrix derivation writes: the matrix and the three curves. */
  datatype Derivation = Derivation(matrix: Mat3, lut: Curves)

  /**
   * The collaborators of `commit_params`:
   * - `confProfile`, `confIntent`: the export overrides read from the configuration;
   * - `xprofile`: the X display profile opened from memory, None when there
   *   is no display profile data or it does not open;
   * - `openFile`: locating and opening a profile file by name;
   * - `derive`: `dt_colorspaces_get_matrix_from_output_profile`, None when it fails;
   * - `createTransform`: `cmsCreateTransform` from Lab to a profile at an
   *   intent, called for one thread slot; None when it fails.
   */
  datatype Env = Env(
    confProfile: Option<string>,
    confIntent: int,
    xprofile: Option<Profile>,
    openFile: string -> Option<Profile>,
    derive: Profile -> Option<Derivation>,
    createTransform: (Profile, int, nat) -> Option<Handle>)

  /** A call with an effect outside the plan, in the order the commit makes it. */
  datatype Effect =
    | ReleaseProfile(profile: Profile)
    | DeleteTransform(handle: Handle)
    | CreateTransform(profile: Profile, intent: int, slot: nat)
    | Warn

  /**
   * The state a commit rebuilds: `d->output`, `d->xform[]` (one slot per
   * worker thread), `d->cmatrix`, `d->lut` and `piece->process_cl_ready`.
   */
  datatype Plan = Plan(output: Option<Profile>, xform: seq<Option<Handle>>, cmatrix: Mat3, lut: Curves, clReady: bool) {
    ghost predicate Valid() { |xform| >= 1 }

    /** The fast matrix path is taken, as `process` decides it. */
    predicate MatrixPath() { cmatrix[0] != Sentinel }

    /** The final check's condition: no matrix, and no transform in slot 0. */
    predicate Unusable()
      requires Valid()
    {
      xform[0].None? && cmatrix[0] == Sentinel
    }
  }

  /** The configuration of a fresh module instance, from `init`. */
  function DefaultParams(): (p: Params)
    ensures p.iccprofile == "sRGB" && p.displayprofile == "X profile"
    ensures p.intent == Perceptual && p.displayintent == Perceptual
  {
    Params("sRGB", "X profile", Perceptual, Perceptual)
  }

  /** The deletions of the non-null handles of `xs`, in slot order. */
  function DeleteAll(xs: seq<Option<Handle>>): seq<Effect> {
    if xs == [] then []
    else
      var last := xs[|xs| - 1];
      DeleteAll(xs[..|xs| - 1]) + (if last.Some? then [DeleteTransform(last.value)] else [])
  }

  function CountSome(xs: seq<Option<Handle>>): nat {
    if xs == [] then 0 else CountSome(xs[..|xs| - 1]) + (if xs[|xs| - 1].Some? then 1 else 0)
  }

  /** The teardown deletes every held transform, exactly once each and nothing else. */
  lemma {:induction false} DeleteAllExact(xs: seq<Option<Handle>>)
    ensures |DeleteAll(xs)| == CountSome(xs)
    ensures forall t :: 0 <= t < |xs| && xs[t].Some? ==> DeleteTransform(xs[t].value) in DeleteAll(xs)
    ensures forall e :: e in DeleteAll(xs) ==> e.DeleteTransform? && Some(e.handle) in xs
  {
    if xs != [] {
      var init := xs[..|xs| - 1];
      DeleteAllExact(init);
      forall t | 0 <= t < |xs| && xs[t].Some?
        ensures DeleteTransform(xs[t].value) in DeleteAll(xs)
      {
        if t < |xs| - 1 {
          assert xs[t] == init[t];
        }
      }
      forall e | e in DeleteAll(xs)
        ensures e.DeleteTransform? && Some(e.handle) in xs
      {
        if e in DeleteAll(init) {
          var t :| 0 <= t < |init| && init[t] == Some(e.handle);
          assert xs[t] == init[t];
        }
      }
    }
  }

  function CountWarn(es: seq<Effect>): nat {
    if es == [] then 0 else CountWarn(es[..|es| - 1]) + (if es[|es| - 1].Warn? then 1 else 0)
  }

  lemma {:induction false} CountWarnAppend(a: seq<Effect>, b: seq<Effect>)
    ensures CountWarn(a + b) == CountWarn(a) + CountWarn(b)
  {
    if b != [] {
      assert (a + b)[..|a + b| - 1] == a + b[..|b| - 1];
      CountWarnAppend(a, b[..|b| - 1]);
    } else {
      assert a + b == a;
    }
  }

  lemma NoWarnInDeletes(xs: seq<Option<Handle>>)
    ensures CountWarn(DeleteAll(xs)) == 0
  {
    if xs != [] {
      var last := xs[|xs| - 1];
      NoWarnInDeletes(xs[..|xs| - 1]);
      CountWarnAppend(DeleteAll(xs[..|xs| - 1]), if last.Some? then [DeleteTransform(last.value)] else []);
    }
  }

  /** The transform creations of a failed derivation, one per thread slot. */
  function Creations(profile: Profile, intent: int, n: nat): (es: seq<Effect>)
    ensures |es| == n
  {
    seq(n, (t: nat) => CreateTransform(profile, intent, t))
  }

  lemma {:induction false} NoWarnInCreations(profile: Profile, intent: int, n: nat)
    ensures CountWarn(Creations(profile, intent, n)) == 0
  {
    if n > 0 {
      assert Creations(profile, intent, n)[..n - 1] == Creations(profile, intent, n - 1);
      NoWarnInCreations(profile, intent, n - 1);
    }
  }

  /** Step 1: release the output profile, delete and null every transform, set the sentinel. */
  function Teardown(s: Plan): (r: (Plan, seq<Effect>))
    ensures r.0.output.None? && |r.0.xform| == |s.xform|
    ensures forall t :: 0 <= t < |s.xform| ==> r.0.xform[t].None?
    ensures r.0.cmatrix[0] == Sentinel && r.0.clReady
    ensures r.0.cmatrix[1..] == s.cmatrix[1..] && r.0.lut == s.lut
    ensures s.output.Some? ==> |r.1| >= 1 && r.1[0] == ReleaseProfile(s.output.value)
  {
    var released := if s.output.Some? then [ReleaseProfile(s.output.value)] else [];
    (Plan(None, seq(|s.xform|, _ => None), s.cmatrix[0 := Sentinel], s.lut, true), released + DeleteAll(s.xform))
  }

  /** The profile name and intent a commit resolves, and the parameters as the commit leaves them. */
  datatype Selection = Selection(params: Params, name: string, intent: int)

  /**
   * Step 2: the export pipe uses `iccprofile` and `intent`, overridden by the
   * configured export profile unless that is null or "image", and by the
   * configured export intent when that is not negative.  Any other pipe uses
   * `displayprofile` and `displayintent` and changes nothing.
   */
  function Select(kind: PipeKind, p: Params, env: Env): (r: Selection)
    ensures kind == Display ==> r == Selection(p, p.displayprofile, p.displayintent)
    ensures kind == Export ==> r.name == r.params.iccprofile && r.intent == r.params.intent
    ensures r.params.displayprofile == p.displayprofile && r.params.displayintent == p.displayintent
    ensures r.params.iccprofile != p.iccprofile ==>
              kind == Export && env.confProfile == Some(r.params.iccprofile) && r.params.iccprofile != "image"
    ensures r.params.intent != p.intent ==> kind == Export && env.confIntent == r.params.intent >= 0
    ensures kind == Export && env.confProfile.Some? && env.confProfile.value != "image" ==>
              r.params.iccprofile == env.confProfile.value
    ensures kind == Export && env.confIntent >= 0 ==> r.params.intent == env.confIntent
  {
    match kind
    case Export =>
      var icc := if env.confProfile.Some? && env.confProfile.value != "image" then env.confProfile.value else p.iccprofile;
      var intent := if env.confIntent >= 0 then env.confIntent else p.intent;
      var q := p.(iccprofile := icc, intent := intent);
      Selection(q, icc, intent)
    case Display => Selection(p, p.displayprofile, p.displayintent)
  }

  predicate IsBuiltinName(name: string) {
    name == "sRGB" || name == "linear_rgb" || name == "adobergb" || name == "X profile"
  }

  /**
   * Step 3: the four well-known names select built-in profiles or the X
   * display profile, anything else is looked up as a file; a profile that
   * could not be opened becomes sRGB.
   */
  function Resolve(name: string, env: Env): (r: Profile)
    ensures name == "sRGB" ==> r == SRgb
    ensures name == "linear_rgb" ==> r == LinearRgb
    ensures name == "adobergb" ==> r == AdobeRgb
    ensures name == "X profile" ==> r == env.xprofile.GetOr(SRgb)
    ensures !IsBuiltinName(name) ==> r == env.openFile(name).GetOr(SRgb)
  {
    var found :=
      if name == "sRGB" then Some(SRgb)
      else if name == "linear_rgb" then Some(LinearRgb)
      else if name == "adobergb" then Some(AdobeRgb)
      else if name == "X profile" then env.xprofile
      else env.openFile(name);
    found.GetOr(SRgb)
  }

  /**
   * Step 4: install a derived matrix and curves, or else set the sentinel,
   * mark the plan unfit for the accelerator and build one transform per slot.
   */
  function TryDerive(s: Plan, profile: Profile, intent: int, env: Env): (r: (Plan, seq<Effect>))
    ensures r.0.output == s.output && |r.0.xform| == |s.xform|
    ensures env.derive(profile).Some? ==>
              && r.0.cmatrix == env.derive(profile).value.matrix && r.0.lut == env.derive(profile).value.lut
              && r.0.xform == s.xform && r.0.clReady == s.clReady && r.1 == []
    ensures env.derive(profile).None? ==>
              && r.0.cmatrix[0] == Sentinel && !r.0.clReady && r.0.lut == s.lut
              && (forall t :: 0 <= t < |s.xform| ==> r.0.xform[t] == env.createTransform(profile, intent, t))
              && r.1 == Creations(profile, intent, |s.xform|)
  {
    match env.derive(profile)
    case Some(d) => (s.(cmatrix := d.matrix, lut := d.lut), [])
    case None =>
      (s.(cmatrix := s.cmatrix[0 := Sentinel], clReady := false,
          xform := seq(|s.xform|, (t: nat) => env.createTransform(profile, intent, t))),
       Creations(profile, intent, |s.xform|))
  }

  /**
   * Step 5: a plan with neither a matrix nor a transform in slot 0 is
   * replaced by sRGB after one warning, derived at the parameters' `intent`
   * whichever pipe is committed.
   */
  function FinalCheck(s: Plan, intent: int, env: Env): (r: (Plan, seq<Effect>))
    requires s.Valid()
    ensures |r.0.xform| == |s.xform|
    ensures !s.Unusable() ==> r == (s, [])
    ensures s.Unusable() ==>
              && r.0 == TryDerive(s.(output := Some(SRgb)), SRgb, intent, env).0
              && |r.1| >= 1 && r.1[0] == Warn
              && (s.output.Some? ==> |r.1| >= 2 && r.1[1] == ReleaseProfile(s.output.value))
  {
    if s.Unusable() then
      var released := if s.output.Some? then [ReleaseProfile(s.output.value)] else [];
      var (s', es) := TryDerive(s.(output := Some(SRgb)), SRgb, intent, env);
      (s', [Warn] + released + es)
    else (s, [])
  }

  /** What a commit leaves: the new plan, the parameters as it rewrote them, and its effects. */
  datatype Outcome = Outcome(plan: Plan, params: Params, effects: seq<Effect>)

  /** The resolved profile and intent of the primary attempt. */
  function Requested(kind: PipeKind, p: Params, env: Env): (r: (Profile, int))
    ensures kind == Display ==> r == (Resolve(p.displayprofile, env), p.displayintent)
    ensures kind == Export ==>
              r == (Resolve(Select(kind, p, env).params.iccprofile, env), Select(kind, p, env).params.intent)
  {
    var sel := Select(kind, p, env);
    (Resolve(sel.name, env), sel.intent)
  }

  /** The plan after teardown, resolution and the primary derivation attempt. */
  function Primary(s: Plan, p: Params, kind: PipeKind, env: Env): (r: (Plan, seq<Effect>))
    ensures |r.0.xform| == |s.xform| && r.0.output == Some(Requested(kind, p, env).0)
    ensures |Teardown(s).1| <= |r.1| && r.1[..|Teardown(s).1|] == Teardown(s).1
    ensures env.derive(Requested(kind, p, env).0).Some? ==>
              r.0.clReady && forall t :: 0 <= t < |s.xform| ==> r.0.xform[t].None?
  {
    var (s1, e1) := Teardown(s);
    var (profile, intent) := Requested(kind, p, env);
    var (s2, e2) := TryDerive(s1.(output := Some(profile)), profile, intent, env);
    (s2, e1 + e2)
  }

  /** `commit_params`. */
  function Commit(s: Plan, p: Params, kind: PipeKind, env: Env): (o: Outcome)
    requires s.Valid()
    ensures o.plan.Valid() && |o.plan.xform| == |s.xform|
    ensures o.params == Select(kind, p, env).params
    ensures o.plan.Unusable() ==>
              && Primary(s, p, kind, env).0.Unusable()
              && (env.derive(SRgb).None? || env.derive(SRgb).value.matrix[0] == Sentinel)
  {
    var (s2, e2) := Primary(s, p, kind, env);
    var (s3, e3) := FinalCheck(s2, Select(kind, p, env).params.intent, env);
    Outcome(s3, Select(kind, p, env).params, e2 + e3)
  }

  /** The state `init_pipe` allocates before its first commit. */
  function Fresh(numThreads: nat): (s: Plan)
    requires numThreads >= 1
    ensures s.Valid() && s.output.None? && |s.xform| == numThreads
    ensures forall t :: 0 <= t < numThreads ==> s.xform[t].None?
  {
    Plan(None, seq(numThreads, _ => None), [0.0, 0.0, 0.0, 0.0, 0.0, 0.0, 0.0, 0.0, 0.0],
         [ZeroCurve, ZeroCurve, ZeroCurve], false)
  }

  // ---------------------------------------------------------------------
  // What a commit promises.
  // ---------------------------------------------------------------------

  lemma CommitShape(s: Plan, p: Params, kind: PipeKind, env: Env)
    requires s.Valid()
    ensures Primary(s, p, kind, env).0.Valid()
    ensures |Commit(s, p, kind, env).plan.xform| == |s.xform|
    ensures Commit(s, p, kind, env).effects ==
              Teardown(s).1 + Primary(s, p, kind, env).1[|Teardown(s).1|..] +
              FinalCheck(Primary(s, p, kind, env).0, Select(kind, p, env).params.intent, env).1
  {
    var (s2, e2) := Primary(s, p, kind, env);
    assert e2 == Teardown(s).1 + e2[|Teardown(s).1|..];
  }

  /**
   * Before anything is resolved, a commit releases the previous output
   * profile and deletes every transform the previous plan held, exactly once.
   */
  lemma CommitReleasesPreviousPlan(s: Plan, p: Params, kind: PipeKind, env: Env)
    requires s.Valid()
    ensures var es := Commit(s, p, kind, env).effects;
            var k := (if s.output.Some? then 1 else 0) + CountSome(s.xform);
            && k <= |es|
            && (s.output.Some? ==> es[0] == ReleaseProfile(s.output.value))
            && (forall t :: 0 <= t < |s.xform| && s.xform[t].Some? ==> DeleteTransform(s.xform[t].value) in es[..k])
            && (forall e :: e in es[..k] ==> (s.output.Some? && e == ReleaseProfile(s.output.value)) || (e.DeleteTransform? && Some(e.handle) in s.xform))
  {
    DeleteAllExact(s.xform);
    CommitShape(s, p, kind, env);
    var es := Commit(s, p, kind, env).effects;
    var released := if s.output.Some? then [ReleaseProfile(s.output.value)] else [];
    assert es[..|Teardown(s).1|] == released + DeleteAll(s.xform);
  }

  /**
   * A derivable profile whose matrix is not mistaken for the sentinel gives
   * the fast path: its matrix and curves, no transform in any slot, fit for
   * the accelerator, and no effect but the teardown.
   */
  lemma CommitMatrixPath(s: Plan, p: Params, kind: PipeKind, env: Env)
    requires s.Valid()
    requires var (profile, _) := Requested(kind, p, env);
             env.derive(profile).Some? && env.derive(profile).value.matrix[0] != Sentinel
    ensures var o := Commit(s, p, kind, env);
            var (profile, _) := Requested(kind, p, env);
            && o.plan == Plan(Some(profile), seq(|s.xform|, _ => None), env.derive(profile).value.matrix, env.derive(profile).value.lut, true)
            && o.plan.MatrixPath()
            && o.effects == Teardown(s).1
  {
  }

  /**
   * A profile that is not matrix-representable but for which slot 0's
   * transform can be built gives the fallback path: the sentinel, no
   * accelerator, exactly one transform creation per slot, and no warning.
   */
  lemma CommitTransformPath(s: Plan, p: Params, kind: PipeKind, env: Env)
    requires s.Valid()
    requires var (profile, intent) := Requested(kind, p, env);
             env.derive(profile).None? && env.createTransform(profile, intent, 0).Some?
    ensures var o := Commit(s, p, kind, env);
            var (profile, intent) := Requested(kind, p, env);
            && !o.plan.MatrixPath() && !o.plan.clReady && o.plan.output == Some(profile)
            && (forall t :: 0 <= t < |s.xform| ==> o.plan.xform[t] == env.createTransform(profile, intent, t))
            && o.effects == Teardown(s).1 + Creations(profile, intent, |s.xform|)
            && CountWarn(o.effects) == 0
  {
    var (profile, intent) := Requested(kind, p, env);
    var released := if s.output.Some? then [ReleaseProfile(s.output.value)] else [];
    CountWarnAppend(released + DeleteAll(s.xform), Creations(profile, intent, |s.xform|));
    CountWarnAppend(released, DeleteAll(s.xform));
    NoWarnInDeletes(s.xform);
    NoWarnInCreations(profile, intent, |s.xform|);
  }

  /**
   * The warning is logged at most once, and exactly when the primary
   * attempt left the plan with neither a matrix nor a transform in slot 0.
   */
  lemma CommitWarnsOnce(s: Plan, p: Params, kind: PipeKind, env: Env)
    requires s.Valid()
    ensures CountWarn(Commit(s, p, kind, env).effects) == if Primary(s, p, kind, env).0.Unusable() then 1 else 0
  {
    var (s2, e2) := Primary(s, p, kind, env);
    var (s3, e3) := FinalCheck(s2, Select(kind, p, env).params.intent, env);
    PrimaryWarnsNot(s, p, kind, env);
    FinalCheckWarns(s2, Select(kind, p, env).params.intent, env);
    CountWarnAppend(e2, e3);
  }

  /** Teardown and the primary attempt log no warning. */
  lemma PrimaryWarnsNot(s: Plan, p: Params, kind: PipeKind, env: Env)
    ensures CountWarn(Primary(s, p, kind, env).1) == 0
  {
    var (s1, e1) := Teardown(s);
    var (profile, intent) := Requested(kind, p, env);
    var released := if s.output.Some? then [ReleaseProfile(s.output.value)] else [];
    var e2 := TryDerive(s1.(output := Some(profile)), profile, intent, env).1;
    CountWarnAppend(released, DeleteAll(s.xform));
    NoWarnInDeletes(s.xform);
    CountWarnAppend(e1, e2);
    NoWarnInCreations(profile, intent, |s.xform|);
  }

  /** The final check logs one warning exactly when it replaces an unusable plan. */
  lemma FinalCheckWarns(s: Plan, intent: int, env: Env)
    requires s.Valid()
    ensures CountWarn(FinalCheck(s, intent, env).1) == if s.Unusable() then 1 else 0
  {
    if s.Unusable() {
      var released := if s.output.Some? then [ReleaseProfile(s.output.value)] else [];
      var es := TryDerive(s.(output := Some(SRgb)), SRgb, intent, env).1;
      assert FinalCheck(s, intent, env).1 == [Warn] + released + es;
      CountWarnAppend([Warn] + released, es);
      CountWarnAppend([Warn], released);
      assert CountWarn([Warn]) == 1 by { assert [Warn][..0] == []; }
      NoWarnInCreations(SRgb, intent, |s.xform|);
    }
  }

  /** The primary attempt is unusable exactly when derivation failed and slot 0's transform did not build, or a derived matrix collides with the sentinel. */
  lemma PrimaryUnusableIff(s: Plan, p: Params, kind: PipeKind, env: Env)
    requires s.Valid()
    ensures var (profile, intent) := Requested(kind, p, env);
            Primary(s, p, kind, env).0.Unusable() <==>
              match env.derive(profile)
              case None => env.createTransform(profile, intent, 0).None?
              case Some(d) => d.matrix[0] == Sentinel
  {
  }

  /**
   * The replacement uses sRGB at the parameters' `intent`, also on a
   * display pipe whose own intent is `displayintent`.
   */
  lemma CommitReplacementUsesIntent(s: Plan, p: Params, kind: PipeKind, env: Env)
    requires s.Valid()
    requires Primary(s, p, kind, env).0.Unusable()
    requires env.derive(SRgb).None?
    ensures var o := Commit(s, p, kind, env);
            && o.plan.output == Some(SRgb)
            && (kind == Display ==> o.params.intent == p.intent)
            && (forall t :: 0 <= t < |s.xform| ==> o.plan.xform[t] == env.createTransform(SRgb, o.params.intent, t))
  {
  }

  /** After its teardown a commit deletes nothing: every later effect is a creation, a release or the warning. */
  lemma NoDeletionAfterTeardown(s: Plan, p: Params, kind: PipeKind, env: Env)
    requires s.Valid()
    ensures |Teardown(s).1| <= |Commit(s, p, kind, env).effects|
    ensures forall e :: e in Commit(s, p, kind, env).effects[|Teardown(s).1|..] ==> !e.DeleteTransform?
  {
    CommitShape(s, p, kind, env);
    var (s2, e2) := Primary(s, p, kind, env);
    var (s3, e3) := FinalCheck(s2, Select(kind, p, env).params.intent, env);
    var n := |Teardown(s).1|;
    var es := Commit(s, p, kind, env).effects;
    assert es[n..] == e2[n..] + e3;
    forall e | e in e2[n..] ensures !e.DeleteTransform? {
      var (profile, intent) := Requested(kind, p, env);
      assert e2[n..] == TryDerive(Teardown(s).0.(output := Some(profile)), profile, intent, env).1;
    }
  }

  /**
   * The replacement overwrites every slot without deleting what the primary
   * attempt created there: when the requested profile's derivation fails,
   * its slot-0 transform does not build but its slot-1 transform does, and
   * sRGB is not derivable either, the slot-1 handle is created, replaced
   * in the plan by sRGB's, and never deleted by the commit.
   */
  lemma ReplacementDropsLaterSlots(s: Plan, p: Params, kind: PipeKind, env: Env)
    requires s.Valid() && |s.xform| >= 2
    requires var (profile, intent) := Requested(kind, p, env);
             && env.derive(profile).None?
             && env.createTransform(profile, intent, 0).None?
             && env.createTransform(profile, intent, 1).Some?
    requires env.derive(SRgb).None?
    ensures var (profile, intent) := Requested(kind, p, env);
            var o := Commit(s, p, kind, env);
            && CreateTransform(profile, intent, 1) in o.effects
            && o.plan.xform[1] == env.createTransform(SRgb, o.params.intent, 1)
            && |Teardown(s).1| <= |o.effects|
            && DeleteTransform(env.createTransform(profile, intent, 1).value) !in o.effects[|Teardown(s).1|..]
  {
    var (profile, intent) := Requested(kind, p, env);
    CommitShape(s, p, kind, env);
    NoDeletionAfterTeardown(s, p, kind, env);
    var n := |Teardown(s).1|;
    var es := Commit(s, p, kind, env).effects;
    var e2 := Primary(s, p, kind, env).1;
    assert e2[n..] == Creations(profile, intent, |s.xform|);
    assert e2[n..][1] == CreateTransform(profile, intent, 1);
    assert es[n + 1] == CreateTransform(profile, intent, 1);
  }

  /**
   * `process_cl_ready` is set at the end of a commit exactly when no
   * derivation attempt of the commit failed.
   */
  lemma CommitClReadyIff(s: Plan, p: Params, kind: PipeKind, env: Env)
    requires s.Valid()
    ensures var (profile, _) := Requested(kind, p, env);
            Commit(s, p, kind, env).plan.clReady <==>
              env.derive(profile).Some? && (Primary(s, p, kind, env).0.Unusable() ==> env.derive(SRgb).Some?)
  {
  }

  /**
   * When sRGB itself is derivable, with a matrix that is not mistaken for the
   * sentinel, every commit ends with a plan `process` can run: a matrix, or a
   * transform in slot 0.
   */
  lemma CommitEndsUsable(s: Plan, p: Params, kind: PipeKind, env: Env)
    requires s.Valid()
    requires env.derive(SRgb).Some? && env.derive(SRgb).value.matrix[0] != Sentinel
    ensures Commit(s, p, kind, env).plan.Valid()
    ensures !Commit(s, p, kind, env).plan.Unusable()
  {
  }

  /**
   * A profile file that cannot be opened is silently replaced by sRGB: the
   * plan is the one the name "sRGB" gives, with no warning when sRGB is
   * derivable.
   */
  lemma MissingFileMeansSRgb(s: Plan, p: Params, kind: PipeKind, env: Env)
    requires s.Valid()
    requires var sel := Select(kind, p, env);
             !IsBuiltinName(sel.name) && env.openFile(sel.name).None?
    requires env.derive(SRgb).Some? && env.derive(SRgb).value.matrix[0] != Sentinel
    ensures var o := Commit(s, p, kind, env);
            && o.plan == Plan(Some(SRgb), seq(|s.xform|, _ => None), env.derive(SRgb).value.matrix, env.derive(SRgb).value.lut, true)
            && CountWarn(o.effects) == 0
  {
    CommitWarnsOnce(s, p, kind, env);
  }

  /**
   * Committing again with the parameters a commit left behind rebuilds the
   * same plan and leaves the same parameters, and it first releases every
   * resource the first plan held.
   */
  lemma CommitIdempotent(s: Plan, p: Params, kind: PipeKind, env: Env)
    requires s.Valid()
    ensures var o1 := Commit(s, p, kind, env);
            var o2 := Commit(o1.plan, o1.params, kind, env);
            && o2.plan == o1.plan
            && o2.params == o1.params
            && (forall t :: 0 <= t < |o1.plan.xform| && o1.plan.xform[t].Some? ==> DeleteTransform(o1.plan.xform[t].value) in o2.effects)
  {
    var o1 := Commit(s, p, kind, env);
    CommitPlanIdempotent(s, p, kind, env);
    SelectIdempotent(kind, p, env);
    CommitReleasesPreviousPlan(o1.plan, o1.params, kind, env);
  }

  lemma CommitPlanIdempotent(s: Plan, p: Params, kind: PipeKind, env: Env)
    requires s.Valid()
    ensures Commit(s, p, kind, env).plan.Valid()
    ensures var o1 := Commit(s, p, kind, env);
            Commit(o1.plan, o1.params, kind, env).plan == o1.plan
  {
    var o1 := Commit(s, p, kind, env);
    CommitShape(s, p, kind, env);
    SelectIdempotent(kind, p, env);
    assert Requested(kind, o1.params, env) == Requested(kind, p, env);
    var a, b := Primary(s, p, kind, env).0, Primary(o1.plan, o1.params, kind, env).0;
    assert a.xform == b.xform;
  }

  /** Selecting from parameters a selection already rewrote changes nothing more. */
  lemma SelectIdempotent(kind: PipeKind, p: Params, env: Env)
    ensures Select(kind, Select(kind, p, env).params, env) == Select(kind, p, env)
  {
  }

  /**
   * A fresh instance releases nothing on its first commit; on an export pipe
   * with no configured override, the default parameters give the matrix path
   * of sRGB when sRGB is derivable.
   */
  lemma InitPipeDefaults(numThreads: nat, env: Env)
    requires numThreads >= 1
    requires env.confProfile.None? && env.confIntent < 0
    requires env.derive(SRgb).Some? && env.derive(SRgb).value.matrix[0] != Sentinel
    ensures var o := Commit(Fresh(numThreads), DefaultParams(), Export, env);
            && o.effects == []
            && o.params == DefaultParams()
            && o.plan.MatrixPath() && o.plan.clReady && o.plan.output == Some(SRgb)
  {
    var s := Fresh(numThreads);
    assert DeleteAll(s.xform) == [] by { NoDeletesWhenEmpty(s.xform); }
  }

  lemma {:induction false} NoDeletesWhenEmpty(xs: seq<Option<Handle>>)
    requires forall t :: 0 <= t < |xs| ==> xs[t].None?
    ensures DeleteAll(xs) == []
  {
    if xs != [] {
      NoDeletesWhenEmpty(xs[..|xs| - 1]);
    }
  }

  // ---------------------------------------------------------------------
  // The pixelpipe piece whose data a commit rebuilds in place.
  // ---------------------------------------------------------------------

  class Piece {
    var output: Option<Profile>
    var xform: array<Option<Handle>>
    var cmatrix: Mat3
    var lut: Curves
    var processClReady: bool

    ghost predicate Valid()
      reads this
    {
      xform.Length >= 1
    }

    function Snapshot(): (s: Plan)
      reads this, xform
      requires Valid()
      ensures s.Valid()
    {
      Plan(output, xform[..], cmatrix, lut, processClReady)
    }

    /**
     * The allocation in `init_pipe`: no output profile and a null transform
     * for each of `numThreads` slots.  The matrix and curves are allocated
     * but not initialised; they are modelled as zeros.
     */
    constructor (numThreads: nat)
      requires numThreads >= 1
      ensures Valid() && fresh(xform)
      ensures Snapshot() == Fresh(numThreads)
    {
      output := None;
      xform := new Option<Handle>[numThreads](_ => None);
      cmatrix := [0.0, 0.0, 0.0, 0.0, 0.0, 0.0, 0.0, 0.0, 0.0];
      lut := [ZeroCurve, ZeroCurve, ZeroCurve];
      processClReady := false;
      new;
      assert xform[..] == seq(numThreads, _ => None);
    }

    /** Steps 4 and 5's derivation: install a matrix, or build one transform per slot. */
    method Derive(profile: Profile, intent: int, env: Env) returns (effects: seq<Effect>)
      requires Valid()
      modifies this, xform
      ensures Valid() && xform == old(xform)
      ensures (Snapshot(), effects) == TryDerive(old(Snapshot()), profile, intent, env)
    {
      var d := env.derive(profile);
      effects := [];
      if d.Some? {
        cmatrix := d.value.matrix;
        lut := d.value.lut;
      } else {
        cmatrix := cmatrix[0 := Sentinel];
        processClReady := false;
        effects := CreateTransforms(xform, profile, intent, env);
      }
    }

    /** Step 1: release the output profile and every transform, and set the sentinel. */
    method ReleasePlan() returns (effects: seq<Effect>)
      requires Valid()
      modifies this, xform
      ensures Valid() && xform == old(xform)
      ensures (Snapshot(), effects) == Teardown(old(Snapshot()))
    {
      var released := if output.Some? then [ReleaseProfile(output.value)] else [];
      output := None;
      var deleted := DeleteTransforms(xform);
      effects := released + deleted;
      cmatrix := cmatrix[0 := Sentinel];
      processClReady := true;
    }

    /** Step 5: replace a plan with neither a matrix nor a transform in slot 0 by sRGB. */
    method ReplaceUnusable(intent: int, env: Env) returns (effects: seq<Effect>)
      requires Valid()
      modifies this, xform
      ensures Valid() && xform == old(xform)
      ensures (Snapshot(), effects) == FinalCheck(old(Snapshot()), intent, env)
    {
      ghost var s0 := Snapshot();
      effects := [];
      if xform[0].None? && cmatrix[0] == Sentinel {
        var released := if output.Some? then [ReleaseProfile(output.value)] else [];
        output := Some(SRgb);
        assert Snapshot() == s0.(output := Some(SRgb));
        var es := Derive(SRgb, intent, env);
        effects := [Warn] + released + es;
      }
    }

    /** `commit_params`: rebuild the plan for `p` on a pipe of the given kind. */
    method CommitParams(p: Params, kind: PipeKind, env: Env) returns (p': Params, effects: seq<Effect>)
      requires Valid()
      modifies this, xform
      ensures Valid() && xform == old(xform)
      ensures Outcome(Snapshot(), p', effects) == Commit(old(Snapshot()), p, kind, env)
    {
      ghost var s0 := Snapshot();
      effects := ReleasePlan();
      var sel := Select(kind, p, env);
      p' := sel.params;
      var profile := Resolve(sel.name, env);
      output := Some(profile);
      var es := Derive(profile, sel.intent, env);
      effects := effects + es;
      assert (Snapshot(), effects) == Primary(s0, p, kind, env);
      es := ReplaceUnusable(p'.intent, env);
      effects := effects + es;
    }
  }

  /** The loop over the thread slots of step 1: delete and null every held transform. */
  method DeleteTransforms(xform: array<Option<Handle>>) returns (effects: seq<Effect>)
    modifies xform
    ensures xform[..] == seq(xform.Length, _ => None)
    ensures effects == DeleteAll(old(xform[..]))
  {
    ghost var s0 := xform[..];
    effects := [];
    for t := 0 to xform.Length
      invariant effects == DeleteAll(s0[..t])
      invariant forall i :: 0 <= i < t ==> xform[i].None?
      invariant forall i :: t <= i < xform.Length ==> xform[i] == s0[i]
    {
      assert s0[..t + 1][..t] == s0[..t];
      if xform[t].Some? {
        effects := effects + [DeleteTransform(xform[t].value)];
        xform[t] := None;
      }
    }
    assert s0[..xform.Length] == s0;
    assert xform[..] == seq(xform.Length, _ => None);
  }

  /** The loop over the thread slots of step 4's fallback: one transform per slot. */
  method CreateTransforms(xform: array<Option<Handle>>, profile: Profile, intent: int, env: Env)
    returns (effects: seq<Effect>)
    modifies xform
    ensures xform[..] == seq(xform.Length, (t: nat) => env.createTransform(profile, intent, t))
    ensures effects == Creations(profile, intent, xform.Length)
  {
    effects := [];
    for t := 0 to xform.Length
      invariant forall i :: 0 <= i < t ==> xform[i] == env.createTransform(profile, intent, i)
      invariant effects == Creations(profile, intent, t)
    {
      xform[t] := env.createTransform(profile, intent, t);
      effects := effects + [CreateTransform(profile, intent, t)];
    }
    assert xform[..] == seq(xform.Length, (t: nat) => env.createTransform(profile, intent, t));
  }

  /**
   * `init_pipe`: allocate the piece's data for `numThreads` worker threads
   * and commit the default parameters.
   */
  method InitPipe(numThreads: nat, kind: PipeKind, env: Env) returns (piece: Piece, p: Params, effects: seq<Effect>)
    requires numThreads >= 1
    ensures fresh(piece) && piece.Valid()
    ensures Outcome(piece.Snapshot(), p, effects) == Commit(Fresh(numThreads), DefaultParams(), kind, env)
  {
    piece := new Piece(numThreads);
    p, effects := piece.CommitParams(DefaultParams(), kind, env);
  }
}
