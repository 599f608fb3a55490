/** The automatic compression plan: bitrate budget and aspect-preserving box fitting. */
module Planner {
  import opened Base
  import opened Spec

  const AutoMaxTotalBitrate := 1_600_000
  const AutoSourceTargetPercent := 85
  const AutoSourceMaxPercent := 95
  const AutoContainerOverhead := 20_000
  const AutoMinimumAudioBps := 16_000
  const AutoMinimumVideoBps := 300_000

  datatype Tier = Tier(name: string, landscapeWidth: nat, landscapeHeight: nat, portraitWidth: nat, portraitHeight: nat)

  const Tier360 := Tier("360p", 640, 360, 360, 640)
  const Tier480 := Tier("480p", 854, 480, 480, 854)
  const Tier720 := Tier("720p", 1280, 720, 720, 1280)

  /** A stream as ffprobe reports it; an absent or unreadable rotation tag is 0. */
  datatype Stream = Stream(codecType: string, codecName: string, width: int, height: int,
                           rotation: int, sideRotations: seq<int>, rotateTag: int)

  /** A duration in seconds, as the fraction num/den. */
  datatype Duration = Duration(num: int, den: nat)

  datatype Probe = Probe(streams: seq<Stream>, duration: Option<Duration>)

  datatype Plan = Plan(
    sourceTotal: int, targetTotal: int, maxTotal: int, tier: string, targetWidth: int, targetHeight: int,
    videoBitrate: int, videoMaxrate: int, audioKbps: int, resolution: Resolution, copy: bool)

  function Min(a: int, b: int): int { if a < b then a else b }
  function Max(a: int, b: int): int { if a > b then a else b }

  /* ---- rotation ---- */

  /** The remainder as the source takes it: with the sign of the dividend. */
  function TruncMod(a: int, b: int): int
    requires b > 0
  {
    if a >= 0 then a % b else -(-a % b)
  }

  function FirstNonZero(xs: seq<int>): int {
    if xs == [] then 0 else if xs[0] != 0 then xs[0] else FirstNonZero(xs[1..])
  }

  function RawRotation(s: Stream): int {
    if s.rotation != 0 then s.rotation
    else if FirstNonZero(s.sideRotations) != 0 then FirstNonZero(s.sideRotations)
    else s.rotateTag
  }

  function Rotation(s: Stream): int {
    var r := TruncMod(RawRotation(s), 360);
    if r < 0 then r + 360 else r
  }

  function DisplayDimensions(s: Stream): (int, int) {
    if Rotation(s) == 90 || Rotation(s) == 270 then (s.height, s.width) else (s.width, s.height)
  }

  /** Negative and larger-than-full rotations denote the same angle as their residue. */
  lemma RotationIsResidue(s: Stream, turns: int)
    ensures 0 <= Rotation(s) < 360 && Rotation(s) == RawRotation(s) % 360
    ensures RawRotation(s) + 360 * turns != 0 ==> Rotation(s.(rotation := RawRotation(s) + 360 * turns)) == Rotation(s)
  {
    var r := RawRotation(s);
    ResidueOf(r);
    ResidueOf(r + 360 * turns);
    ModTurns(r, turns);
  }

  lemma ResidueOf(r: int)
    ensures (if TruncMod(r, 360) < 0 then TruncMod(r, 360) + 360 else TruncMod(r, 360)) == r % 360
  {
  }

  lemma ModTurns(r: int, turns: int)
    ensures (r + 360 * turns) % 360 == r % 360
  {
    var q, m := r / 360, r % 360;
    assert r + 360 * turns == 360 * (q + turns) + m;
  }

  /* ---- box fitting ---- */

  /** Twice the nearest integer to n/(2d), halves away from zero. */
  function RoundedEven(n: int, d: int): int {
    if n <= 0 || d <= 0 then 0 else (n + d) / (2 * d) * 2
  }

  function EvenAtMost(value: int, limit: int): int {
    var capped := if value > limit then limit else value;
    var even := if capped % 2 != 0 then capped - 1 else capped;
    if even < 2 && limit >= 2 then 2 else even
  }

  function Bounds(t: Tier, w: int, h: int): (int, int) {
    if h > w then (t.portraitWidth, t.portraitHeight) else (t.landscapeWidth, t.landscapeHeight)
  }

  function Fit(t: Tier, w: int, h: int): (int, int) {
    var (bw, bh) := Bounds(t, w, h);
    if w <= bw && h <= bh then (EvenAtMost(w, w), EvenAtMost(h, h))
    else
      var (tw, th) := if w * bh > h * bw then (bw, RoundedEven(h * bw, w)) else (RoundedEven(w * bh, h), bh);
      (EvenAtMost(tw, Min(w, bw)), EvenAtMost(th, Min(h, bh)))
  }

  lemma MulStrict(a: int, b: int, c: int)
    requires a < b && c > 0
    ensures a * c + c <= b * c
  {
    var d: nat, k: nat := b - a - 1, c;
    assert d * k >= 0;
    assert b * c == (a + 1 + d) * c == a * c + c + d * c;
  }

  lemma Cancel(a: int, b: int, c: int)
    requires c > 0 && a * c <= b * c
    ensures a <= b
  {
    if a > b { MulStrict(b, a, c); }
  }

  lemma CancelStrict(a: int, b: int, c: int)
    requires c > 0 && a * c < b * c
    ensures a < b
  {
    if b < a { MulStrict(b, a, c); }
  }

  /** Rounding to even moves the exact quotient by at most one, and a tie upwards. */
  lemma RoundedEvenNear(n: int, d: int)
    requires n > 0 && d > 0
    ensures RoundedEven(n, d) >= 0 && RoundedEven(n, d) % 2 == 0
    ensures -d < RoundedEven(n, d) * d - n <= d
  {
    var k := (n + d) / (2 * d);
    assert n + d == k * (2 * d) + (n + d) % (2 * d);
    assert k * (2 * d) == RoundedEven(n, d) * d;
    CancelStrict(-1, k, 2 * d);
  }

  /** A side scaled down to an exact quotient n/d that is within both limits. */
  lemma ScaledSide(n: int, d: int, side: int, box: int)
    requires d > 0 && n > 0 && side >= 2 && box >= 2 && box % 2 == 0
    requires n < side * d && n <= box * d
    ensures var t := EvenAtMost(RoundedEven(n, d), Min(side, box));
            && t % 2 == 0 && 2 <= t <= side && t <= box
            && (-d <= t * d - n <= d || t == 2)
            && (t != 2 ==> t == RoundedEven(n, d))
  {
    RoundedEvenNear(n, d);
    var r := RoundedEven(n, d);
    assert (r - 1) * d <= n by { assert (r - 1) * d == r * d - d; }
    if side <= box { CancelStrict(r - 1, side, d); } else { Cancel(r - 1, box, d); }
  }

  /** Which side of the box limits a picture that does not fit. */
  lemma FitInto(w: int, h: int, bw: int, bh: int)
    requires w >= 2 && h >= 2 && bw >= 2 && bh >= 2
    requires w > bw || h > bh
    ensures w * bh > h * bw ==> w > bw && h * bw < h * w && h * bw <= bh * w
    ensures w * bh <= h * bw ==> h > bh && w * bh < w * h && w * bh <= bw * h
  {
    if w * bh > h * bw {
      if h > bh {
        MulStrict(bh, h, w);
        CancelStrict(bw, w, h);
      }
      MulStrict(bw, w, h);
    } else {
      if w > bw {
        MulStrict(bw, w, h);
        CancelStrict(bh, h, w);
      }
      MulStrict(bh, h, w);
    }
  }

  predicate IsTier(t: Tier) { t == Tier360 || t == Tier480 || t == Tier720 }

  /** The other side of a scaled picture is within one pixel of the exact aspect ratio, or forced to 2. */
  predicate NearRatio(side: int, exactNum: int, exactDen: int) {
    -exactDen <= side * exactDen - exactNum <= exactDen || side == 2
  }

  /** A picture that has to be scaled. */
  lemma Scaled(t: Tier, w: int, h: int, bw: int, bh: int)
    requires w >= 2 && h >= 2 && (bw, bh) == Bounds(t, w, h) && bw >= 2 && bh >= 2 && bw % 2 == 0 && bh % 2 == 0
    requires w > bw || h > bh
    ensures var (tw, th) := Fit(t, w, h);
            && tw % 2 == 0 && th % 2 == 0 && 2 <= tw <= w && 2 <= th <= h && tw <= bw && th <= bh
            && ((tw == bw && NearRatio(th, h * bw, w)) || (th == bh && NearRatio(tw, w * bh, h)))
  {
    hide RoundedEven, Bounds;
    FitInto(w, h, bw, bh);
    if w * bh > h * bw {
      ProductPositive(h, bw);
      ScaledSide(h * bw, w, h, bh);
    } else {
      ProductPositive(w, bh);
      ScaledSide(w * bh, h, w, bw);
    }
  }

  /** Box fitting: both sides are even, at least 2, no larger than the source and
      inside the oriented box; a picture that has to be scaled meets one side of
      the box exactly and keeps its aspect ratio to within one pixel. */
  lemma BoxFitting(t: Tier, w: int, h: int)
    requires IsTier(t) && w >= 2 && h >= 2
    ensures var (tw, th) := Fit(t, w, h);
            var (bw, bh) := Bounds(t, w, h);
            && tw % 2 == 0 && th % 2 == 0 && 2 <= tw <= w && 2 <= th <= h && tw <= bw && th <= bh
            && (w <= bw && h <= bh ==> w - 1 <= tw && h - 1 <= th)
            && (w > bw || h > bh ==>
                  || (tw == bw && NearRatio(th, h * bw, w))
                  || (th == bh && NearRatio(tw, w * bh, h)))
  {
    hide RoundedEven, NearRatio;
    var (bw, bh) := Bounds(t, w, h);
    if w > bw || h > bh { Scaled(t, w, h, bw, bh); }
  }

  lemma ProductPositive(a: int, b: int)
    requires a > 0 && b > 0
    ensures a * b > 0
  {
  }

  /** The result has no side below 2 exactly if the source has none. */
  lemma UsableIff(t: Tier, w: int, h: int)
    requires IsTier(t) && w >= 1 && h >= 1
    ensures Fit(t, w, h).0 >= 2 && Fit(t, w, h).1 >= 2 <==> w >= 2 && h >= 2
  {
    if w >= 2 && h >= 2 { BoxFitting(t, w, h); }
  }

  function Transpose(d: (int, int)): (int, int) { (d.1, d.0) }

  /** Orientation symmetry, ties and squares included. */
  lemma FitTransposed(t: Tier, w: int, h: int)
    requires IsTier(t) && w >= 2 && h >= 2
    ensures Fit(t, h, w) == Transpose(Fit(t, w, h))
  {
    var (bw, bh) := Bounds(t, w, h);
    if w > bw || h > bh {
      if w == h {
        ExactRatio(bh, w);
      } else if w * bh == h * bw {
        ExactRatio(bw, h);
        ExactRatio(bh, w);
      }
    }
  }

  lemma ExactRatio(b: int, d: int)
    requires b > 0 && b % 2 == 0 && d > 0
    ensures RoundedEven(d * b, d) == b
  {
    ProductPositive(d, b);
    RoundedEvenNear(d * b, d);
    var r := RoundedEven(d * b, d);
    assert -1 * d <= (r - b) * d <= 1 * d;
    Cancel(-1, r - b, d);
    Cancel(r - b, 1, d);
  }

  /* ---- the plan ---- */

  function FirstVideo(streams: seq<Stream>): Option<Stream> {
    if streams == [] then None
    else if streams[0].codecType == "video" then Some(streams[0])
    else FirstVideo(streams[1..])
  }

  function ChooseTier(targetTotal: int): Tier {
    if targetTotal >= 1_250_000 then Tier720 else if targetTotal >= 850_000 then Tier480 else Tier360
  }

  /** The source's bits per second, rounded down. */
  function InputTotalBitrate(size: int, d: Duration): int {
    if size <= 0 || d.num <= 0 || d.den == 0 then 0 else size * 8 * d.den / d.num
  }

  /** The source bitrate is the largest whole number of bits per second that does
      not exceed the file's bits over its duration. */
  lemma BitrateIsFloor(size: nat, d: Duration)
    requires size > 0 && d.num > 0 && d.den > 0
    ensures var rate := InputTotalBitrate(size, d);
            rate * d.num <= size * 8 * d.den < (rate + 1) * d.num
  {
    var bits := size * 8 * d.den;
    ProductPositive(size * 8, d.den);
    assert bits == bits / d.num * d.num + bits % d.num;
    assert (bits / d.num + 1) * d.num == bits / d.num * d.num + d.num;
  }

  /** A larger budget never chooses a smaller box, in either orientation, and
      each tier begins at its threshold. */
  lemma TierMonotone(a: int, b: int, w: int, h: int)
    requires a <= b
    ensures Bounds(ChooseTier(a), w, h).0 <= Bounds(ChooseTier(b), w, h).0
    ensures Bounds(ChooseTier(a), w, h).1 <= Bounds(ChooseTier(b), w, h).1
    ensures ChooseTier(a).name == "720p" <==> a >= 1_250_000
    ensures ChooseTier(a).name == "360p" <==> a < 850_000
    ensures IsTier(ChooseTier(a))
    ensures var long, short := if a >= 1_250_000 then 1280 else if a >= 850_000 then 854 else 640,
                               if a >= 1_250_000 then 720 else if a >= 850_000 then 480 else 360;
            Bounds(ChooseTier(a), w, h) == if h > w then (short, long) else (long, short)
  {
  }

  function TargetDimensions(requested: Resolution, t: Tier, w: int, h: int): (int, int) {
    match requested.mode
    case "source" => (w, h)
    case "fit" => (requested.width, requested.height)
    case _ => Fit(t, w, h)
  }

  function PlanResolution(requested: Resolution, w: int, h: int): Resolution {
    if requested.mode == "source" || requested.mode == "fit" then requested else Resolution("fit", w, h, Some(false))
  }

  function AllAac(streams: seq<Stream>): bool {
    forall i :: 0 <= i < |streams| && streams[i].codecType == "audio" ==> Lower(streams[i].codecName) == "aac"
  }

  function CopySafe(p: Probe, o: Output, display: (int, int), target: (int, int)): bool {
    && o.container == "mp4" && o.video.codec == "h264" && o.audio.codec == "aac" && o.video.resolution.mode == "auto"
    && FirstVideo(p.streams).Some? && Lower(FirstVideo(p.streams).value.codecName) == "h264"
    && display.0 <= target.0 && display.1 <= target.1
    && AllAac(p.streams)
  }

  /** What the budget gives to audio and video. */
  datatype Budget = Budget(target: int, max: int, audioBps: int, video: int, maxrate: int)

  function RequestedAudio(o: Output): int {
    if o.audio.bitrateKbps * 1000 <= 0 then AutoDefaultAudioKbps * 1000 else o.audio.bitrateKbps * 1000
  }

  function BudgetOf(sourceTotal: nat, requestedAudio: int): Budget {
    var target := Min(sourceTotal * AutoSourceTargetPercent / 100, AutoMaxTotalBitrate);
    var max0 := Min(sourceTotal * AutoSourceMaxPercent / 100, AutoMaxTotalBitrate);
    var max := if max0 < target then target else max0;
    var video := target - requestedAudio - AutoContainerOverhead;
    if video < AutoMinimumVideoBps && target > AutoContainerOverhead + AutoMinimumAudioBps + AutoMinimumVideoBps then
      var rest := (target - AutoContainerOverhead - AutoMinimumVideoBps) / 1000 * 1000;
      var audio := if rest < AutoMinimumAudioBps then AutoMinimumAudioBps else rest;
      Budget(target, max, audio, target - audio - AutoContainerOverhead, max - audio - AutoContainerOverhead)
    else
      Budget(target, max, requestedAudio, video, max - requestedAudio - AutoContainerOverhead)
  }

  function AutoPlan(size: int, p: Probe, o: Output): Result<Plan> {
    if FirstVideo(p.streams).None? then Err("probe has no video stream")
    else if p.duration.None? || p.duration.value.num <= 0 || p.duration.value.den == 0 then Err("probe has invalid duration")
    else
      var display := DisplayDimensions(FirstVideo(p.streams).value);
      if size <= 0 || display.0 <= 0 || display.1 <= 0 then Err("probe has invalid video dimensions or input size")
      else
        var source := InputTotalBitrate(size, p.duration.value);
        if source <= 0 then Err("input has no usable total bitrate")
        else Ok(PlanFor(source, p, o, display))
  }

  function PlanFor(source: nat, p: Probe, o: Output, display: (int, int)): Plan {
    var b := BudgetOf(source, RequestedAudio(o));
    var tier := ChooseTier(b.target);
    var target := TargetDimensions(o.video.resolution, tier, display.0, display.1);
    var resolution := PlanResolution(o.video.resolution, target.0, target.1);
    if b.video <= 0 && CopySafe(p, o, display, target) then
      Plan(source, source, source, tier.name, target.0, target.1, 0, 0,
           Max(b.audioBps, AutoMinimumAudioBps) / 1000, resolution, true)
    else
      var video := if b.video <= 0 then 1_000 else b.video;
      var maxrate := if b.video <= 0 then video else b.maxrate;
      Plan(source, b.target, b.max, tier.name, target.0, target.1, video, if maxrate < video then video else maxrate,
           b.audioBps / 1000, resolution, false)
  }

  /** The number in the encoder's bitrate argument, in kbps. */
  function BitrateArg(bps: int): int {
    var kbps := if bps >= 0 then bps / 1000 else -(-bps / 1000);
    if kbps < 1 then 1 else kbps
  }

  /** The emitted argument stays within the planned bitrate exactly from 1 kbps on, and is then less than 1 kbps short. */
  lemma ArgWithinBitrate(bps: int)
    ensures BitrateArg(bps) * 1000 <= bps <==> bps >= 1000
    ensures bps >= 1000 ==> bps - 1000 < BitrateArg(bps) * 1000
  {
  }

  /** What a usable target total is: it leaves video something, or is large enough to shrink the audio for it. */
  predicate Affordable(target: int, requestedAudio: int) {
    target > requestedAudio + AutoContainerOverhead
    || target > AutoContainerOverhead + AutoMinimumAudioBps + AutoMinimumVideoBps
  }

  /** The bitrate budget: the target is at most 85 % of the source and the
      ceiling at most 1.6 Mbit/s; the parts of an affordable budget add up to it
      exactly; audio is whole kbps, never above the request, and from the minimum
      total on never below 16 kbps while video gets at least 300 kbps. */
  lemma BudgetAddsUp(source: nat, requestedKbps: int)
    requires 16 <= requestedKbps <= 512
    ensures var b := BudgetOf(source, requestedKbps * 1000);
            && b.target * 100 <= source * 85 && b.target <= b.max <= AutoMaxTotalBitrate && b.max * 100 <= source * 95
            && b.video + b.audioBps + AutoContainerOverhead == b.target
            && b.maxrate + b.audioBps + AutoContainerOverhead == b.max && b.video <= b.maxrate
            && b.audioBps % 1000 == 0 && AutoMinimumAudioBps <= b.audioBps <= requestedKbps * 1000
            && (b.target > AutoContainerOverhead + AutoMinimumAudioBps + AutoMinimumVideoBps ==> b.video >= AutoMinimumVideoBps)
            && (b.video > 0 <==> Affordable(b.target, requestedKbps * 1000))
  {
  }

  /** The limits are met as closely as whole numbers allow: the target is the
      largest within 85 % of the source and 1.6 Mbit/s, the ceiling the largest
      within 95 % and 1.6 Mbit/s; audio is what was asked for unless video would
      stay below its minimum, and is then reduced by no kbps more than that takes. */
  lemma BudgetExactly(source: nat, requestedKbps: int)
    requires 16 <= requestedKbps <= 512
    ensures var b := BudgetOf(source, requestedKbps * 1000);
            && b.target <= 1_600_000 && 100 * b.target <= 85 * source && (b.target == 1_600_000 || 85 * source < 100 * (b.target + 1))
            && b.max <= 1_600_000 && 100 * b.max <= 95 * source && (b.max == 1_600_000 || 95 * source < 100 * (b.max + 1))
            && (b.audioBps < requestedKbps * 1000 <==> 336_000 < b.target < 320_000 + requestedKbps * 1000)
            && (b.audioBps < requestedKbps * 1000 ==> b.video >= 300_000 && b.target - (b.audioBps + 1000) - 20_000 < 300_000)
            && (b.audioBps >= requestedKbps * 1000 ==> b.audioBps == requestedKbps * 1000)
  {
  }

  /** The clamp of the reduced audio bitrate is dead: whatever is left after the
      video minimum is at least the audio minimum. */
  lemma AudioClampIsDead(target: int)
    requires target > AutoContainerOverhead + AutoMinimumAudioBps + AutoMinimumVideoBps
    ensures (target - AutoContainerOverhead - AutoMinimumVideoBps) / 1000 * 1000 >= AutoMinimumAudioBps
  {
  }

  /** A transcode plan keeps its budget exactly if the budget is affordable; then
      also the emitted arguments do, provided video gets a whole kbps. */
  lemma PlanWithinBudget(source: nat, p: Probe, o: Output, display: (int, int))
    requires 16 <= o.audio.bitrateKbps <= 512
    ensures var plan := PlanFor(source, p, o, display);
            !plan.copy ==>
              && (plan.videoBitrate + plan.audioKbps * 1000 + AutoContainerOverhead <= plan.targetTotal
                  <==> Affordable(plan.targetTotal, o.audio.bitrateKbps * 1000))
              && (Affordable(plan.targetTotal, o.audio.bitrateKbps * 1000) ==>
                    && plan.videoBitrate + plan.audioKbps * 1000 + AutoContainerOverhead == plan.targetTotal
                    && plan.videoMaxrate + plan.audioKbps * 1000 + AutoContainerOverhead == plan.maxTotal
                    && (plan.videoBitrate >= 1000 ==>
                          && BitrateArg(plan.videoBitrate) * 1000 + plan.audioKbps * 1000 + AutoContainerOverhead <= plan.targetTotal
                          && BitrateArg(plan.videoMaxrate) * 1000 + plan.audioKbps * 1000 + AutoContainerOverhead <= plan.maxTotal))
  {
    hide Fit, CopySafe, BudgetOf;
    var b := BudgetOf(source, o.audio.bitrateKbps * 1000);
    BudgetAddsUp(source, o.audio.bitrateKbps);
    ArgWithinBitrate(b.video);
    ArgWithinBitrate(b.maxrate);
  }

  /** The first video stream is the one that counts. */
  lemma {:induction false} FirstVideoIs(streams: seq<Stream>, i: nat)
    requires i < |streams| && streams[i].codecType == "video" && forall k :: 0 <= k < i ==> streams[k].codecType != "video"
    ensures FirstVideo(streams) == Some(streams[i])
  {
    if i > 0 { FirstVideoIs(streams[1..], i - 1); }
  }

  lemma {:induction false} NoVideoIs(streams: seq<Stream>)
    requires forall k :: 0 <= k < |streams| ==> streams[k].codecType != "video"
    ensures FirstVideo(streams).None?
  {
    if streams != [] { NoVideoIs(streams[1..]); }
  }

  /** A plan exists exactly if the probe has a video stream with sides, a duration,
      and at least one bit per second. */
  lemma PlannedExactly(size: int, p: Probe, o: Output)
    ensures AutoPlan(size, p, o).Ok? <==>
              && FirstVideo(p.streams).Some? && FirstVideo(p.streams).value.width > 0 && FirstVideo(p.streams).value.height > 0
              && p.duration.Some? && p.duration.value.num > 0 && p.duration.value.den > 0
              && size > 0 && size * 8 * p.duration.value.den >= p.duration.value.num
  {
    hide PlanFor, Rotation;
    if size > 0 && p.duration.Some? && p.duration.value.num > 0 && p.duration.value.den > 0 { BitrateIsFloor(size, p.duration.value); }
    if AutoPlan(size, p, o).Ok? { RateReaches(InputTotalBitrate(size, p.duration.value), p.duration.value.num); }
  }

  lemma RateReaches(rate: int, num: int)
    requires rate >= 1 && num > 0
    ensures rate * num >= num
  {
    assert (rate - 1) * num >= 0;
  }

  /** What the encoder is told about the picture: unless the request names its own
      sides or the source's, exactly the fitted sides, and never to scale up. */
  lemma ResolutionIsTarget(size: int, p: Probe, o: Output)
    requires AutoPlan(size, p, o).Ok?
    ensures FirstVideo(p.streams).Some?
    ensures var plan, asked, shown := AutoPlan(size, p, o).value, o.video.resolution, DisplayDimensions(FirstVideo(p.streams).value);
            if asked.mode == "source" then plan.resolution == asked && (plan.targetWidth, plan.targetHeight) == shown
            else if asked.mode == "fit" then plan.resolution == asked && (plan.targetWidth, plan.targetHeight) == (asked.width, asked.height)
            else
              && plan.resolution.mode == "fit" && plan.resolution.upscale == Some(false)
              && plan.resolution.width == plan.targetWidth && plan.resolution.height == plan.targetHeight
              && exists t :: IsTier(t) && t.name == plan.tier && (plan.targetWidth, plan.targetHeight) == Fit(t, shown.0, shown.1)
  {
    hide Fit, BudgetOf, CopySafe, DisplayDimensions;
    var b := BudgetOf(InputTotalBitrate(size, p.duration.value), RequestedAudio(o));
    assert IsTier(ChooseTier(b.target));
  }

  /** The tier follows the budget, and a plan copies the streams exactly if the
      budget leaves video nothing and the source is already what was asked for. */
  lemma CopiedExactly(source: nat, p: Probe, o: Output, display: (int, int))
    requires 16 <= o.audio.bitrateKbps <= 512
    ensures var plan, b := PlanFor(source, p, o, display), BudgetOf(source, o.audio.bitrateKbps * 1000);
            && plan.tier == (if b.target >= 1_250_000 then "720p" else if b.target >= 850_000 then "480p" else "360p")
            && plan.audioKbps == b.audioBps / 1000 && plan.sourceTotal == source
            && (plan.copy <==>
                  && b.target <= b.audioBps + 20_000
                  && o.container == "mp4" && o.video.codec == "h264" && o.audio.codec == "aac" && o.video.resolution.mode == "auto"
                  && FirstVideo(p.streams).Some? && Lower(FirstVideo(p.streams).value.codecName) == "h264"
                  && display.0 <= plan.targetWidth && display.1 <= plan.targetHeight
                  && forall i :: 0 <= i < |p.streams| && p.streams[i].codecType == "audio" ==> Lower(p.streams[i].codecName) == "aac")
            && (!plan.copy ==> plan.targetTotal == b.target && plan.maxTotal == b.max
                               && plan.videoBitrate == (if b.video > 0 then b.video else 1000) && plan.videoMaxrate >= plan.videoBitrate)
  {
    hide Fit, Lower;
    BudgetAddsUp(source, o.audio.bitrateKbps);
  }

  /** Every stream copy shows the source at its own size. */
  lemma CopyKeepsSize(size: int, p: Probe, o: Output)
    requires AutoPlan(size, p, o).Ok? && AutoPlan(size, p, o).value.copy
    ensures FirstVideo(p.streams).Some?
    ensures var plan := AutoPlan(size, p, o).value;
            DisplayDimensions(FirstVideo(p.streams).value) == (plan.targetWidth, plan.targetHeight)
            && plan.targetTotal == plan.maxTotal == plan.sourceTotal
  {
    hide Fit, BudgetOf, AllAac, Lower;
    var display := DisplayDimensions(FirstVideo(p.streams).value);
    var tier := ChooseTier(BudgetOf(InputTotalBitrate(size, p.duration.value), RequestedAudio(o)).target);
    UsableIff(tier, display.0, display.1);
    NoUpscale(tier, display.0, display.1);
  }

  lemma NoUpscale(t: Tier, w: int, h: int)
    requires IsTier(t) && w >= 1 && h >= 1
    ensures Fit(t, w, h).0 <= w && Fit(t, w, h).1 <= h
  {
    if w >= 2 && h >= 2 { BoxFitting(t, w, h); }
  }

  /* ---- rotated sources ---- */

  /** The same file with its video stream turned. */
  ghost predicate Turned(p: Probe, p': Probe) {
    && p'.duration == p.duration && AllAac(p'.streams) == AllAac(p.streams)
    && FirstVideo(p.streams).Some? && FirstVideo(p'.streams).Some?
    && FirstVideo(p'.streams).value.codecName == FirstVideo(p.streams).value.codecName
    && DisplayDimensions(FirstVideo(p'.streams).value) == Transpose(DisplayDimensions(FirstVideo(p.streams).value))
  }

  function TransposedPlan(plan: Plan, requested: Resolution): Plan {
    plan.(targetWidth := plan.targetHeight, targetHeight := plan.targetWidth,
          resolution := if requested.mode == "source" then plan.resolution
                        else plan.resolution.(width := plan.resolution.height, height := plan.resolution.width))
  }

  /** A source turned by a quarter gets the transposed plan, unless the request names the sides. */
  lemma TurnedPlan(size: int, p: Probe, p': Probe, o: Output)
    requires Turned(p, p') && o.video.resolution.mode != "fit" && AutoPlan(size, p, o).Ok?
    requires DisplayDimensions(FirstVideo(p.streams).value).0 >= 2 && DisplayDimensions(FirstVideo(p.streams).value).1 >= 2
    ensures AutoPlan(size, p', o) == Ok(TransposedPlan(AutoPlan(size, p, o).value, o.video.resolution))
  {
    hide Fit, BudgetOf, AllAac, Lower, DisplayDimensions;
    var (w, h) := DisplayDimensions(FirstVideo(p.streams).value);
    var tier := ChooseTier(BudgetOf(InputTotalBitrate(size, p.duration.value), RequestedAudio(o)).target);
    FitTransposed(tier, w, h);
  }

  predicate Quarter(r: int) { r % 360 == 90 || r % 360 == 270 }

  /** The stream's own rotation wins over its side data, the first nonzero side
      datum over the later ones, and any of them over the tag. */
  lemma RotationPriority(s: Stream)
    ensures s.rotation != 0 ==> RawRotation(s) == s.rotation
    ensures s.rotation == 0 ==>
              forall i :: 0 <= i < |s.sideRotations| && s.sideRotations[i] != 0 && (forall k :: 0 <= k < i ==> s.sideRotations[k] == 0)
                ==> RawRotation(s) == s.sideRotations[i]
    ensures s.rotation == 0 && (forall k :: 0 <= k < |s.sideRotations| ==> s.sideRotations[k] == 0) ==> RawRotation(s) == s.rotateTag
  {
    forall i | 0 <= i < |s.sideRotations| && s.sideRotations[i] != 0 && (forall k :: 0 <= k < i ==> s.sideRotations[k] == 0)
      ensures FirstNonZero(s.sideRotations) == s.sideRotations[i]
    {
      FirstNonZeroAt(s.sideRotations, i);
    }
    if forall k :: 0 <= k < |s.sideRotations| ==> s.sideRotations[k] == 0 { AllZero(s.sideRotations); }
  }

  lemma {:induction false} FirstNonZeroAt(xs: seq<int>, i: nat)
    requires i < |xs| && xs[i] != 0 && forall k :: 0 <= k < i ==> xs[k] == 0
    ensures FirstNonZero(xs) == xs[i]
  {
    if i > 0 { FirstNonZeroAt(xs[1..], i - 1); }
  }

  lemma {:induction false} AllZero(xs: seq<int>)
    requires forall k :: 0 <= k < |xs| ==> xs[k] == 0
    ensures FirstNonZero(xs) == 0
  {
    if xs != [] { AllZero(xs[1..]); }
  }

  /** Two streams of the same size are displayed transposed exactly if just one
      of them is turned by a quarter, wherever each reports its rotation; turning
      a stream that is a whole number of quarters off by one more does that. */
  lemma QuarterTurn(s: Stream, s': Stream)
    requires s'.width == s.width && s'.height == s.height
    ensures DisplayDimensions(s') == Transpose(DisplayDimensions(s))
            <==> s.width == s.height || Quarter(RawRotation(s)) != Quarter(RawRotation(s'))
    ensures RawRotation(s) % 90 == 0 && Quarter(RawRotation(s') - RawRotation(s)) ==>
              DisplayDimensions(s') == Transpose(DisplayDimensions(s))
  {
    hide RawRotation;
    ResidueOf(RawRotation(s));
    ResidueOf(RawRotation(s'));
    if RawRotation(s) % 90 == 0 && Quarter(RawRotation(s') - RawRotation(s)) { QuartersAdd(RawRotation(s), RawRotation(s')); }
  }

  lemma QuartersAdd(r: int, r': int)
    requires r % 90 == 0 && Quarter(r' - r)
    ensures Quarter(r) != Quarter(r')
  {
    var turn, rest := (r' - r) / 360, (r' - r) % 360;
    assert r' == r + rest + 360 * turn;
    ModTurns(r + rest, turn);
    var q, m := r / 360, r % 360;
    assert r == m + 360 * q;
    ModTurns(m + rest, q);
    assert m % 90 == 0 by { assert r == 90 * (r / 90); assert m == 90 * (r / 90 - 4 * q); }
  }

  /* ---- the plan used when the stored probe is unusable ---- */

  function FallbackPlan(o: Output): Plan {
    var audio := RequestedAudio(o);
    var video := 1_200_000 - audio - AutoContainerOverhead;
    Plan(1_200_000, 1_200_000, AutoMaxTotalBitrate, "", 1280, 720, if video < 1_000 then 1_000 else video,
         AutoMaxTotalBitrate - audio - AutoContainerOverhead, audio / 1000, Resolution("source", 0, 0, None), false)
  }

  /** The fallback keeps its budget for every accepted audio bitrate; its clamp is dead. */
  lemma FallbackWithinBudget(o: Output)
    requires 16 <= o.audio.bitrateKbps <= 512
    ensures var plan := FallbackPlan(o);
            && plan.videoBitrate + plan.audioKbps * 1000 + AutoContainerOverhead == plan.targetTotal
            && plan.videoMaxrate + plan.audioKbps * 1000 + AutoContainerOverhead == plan.maxTotal
            && plan.audioKbps == o.audio.bitrateKbps && plan.videoBitrate >= AutoMinimumVideoBps
            && plan.targetTotal == plan.sourceTotal == 1_200_000 && plan.maxTotal == 1_600_000
            && plan.resolution == Resolution("source", 0, 0, None) && !plan.copy
  {
  }
}
