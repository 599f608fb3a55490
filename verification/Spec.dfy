/** The output specification: presets, overrides, validation and quality. */
module Spec {
  import opened Base

  datatype Quality = Quality(mode: string, value: int, crf: int)
  datatype Resolution = Resolution(mode: string, width: int, height: int, upscale: Option<bool>)
  datatype Video = Video(codec: string, encoder: string, quality: Quality, resolution: Resolution)
  datatype Audio = Audio(codec: string, bitrateKbps: int)
  datatype Output = Output(preset: string, container: string, video: Video, audio: Audio)

  datatype Input = Input(filename: string, size: int, sha256: string)
  datatype Request = Request(input: Input, output: Output)
  datatype Limits = Limits(capacity: nat, maxWidth: int, maxHeight: int)

  datatype Result<+T> = Ok(value: T) | Err(message: string)

  const AutoDefaultAudioKbps := 128

  function Fallback(x: string, b: string): string { if x != "" then x else b }

  /** Explicit fields of x override b. */
  function Merge(b: Output, x: Output): Output {
    var q := x.video.quality;
    var quality :=
      if q.mode == "" then b.video.quality
      else if q.mode == "quality" then b.video.quality.(mode := q.mode, value := q.value)
      else if q.mode == "crf" then b.video.quality.(mode := q.mode, crf := q.crf)
      else b.video.quality.(mode := q.mode);
    var r, br := x.video.resolution, b.video.resolution;
    Output(x.preset,
           Fallback(x.container, b.container),
           Video(Fallback(x.video.codec, b.video.codec),
                 Fallback(x.video.encoder, b.video.encoder),
                 quality,
                 Resolution(Fallback(r.mode, br.mode),
                            if r.width != 0 then r.width else br.width,
                            if r.height != 0 then r.height else br.height,
                            if r.upscale.Some? then r.upscale else br.upscale)),
           Audio(Fallback(x.audio.codec, b.audio.codec),
                 if x.audio.bitrateKbps != 0 then x.audio.bitrateKbps else b.audio.bitrateKbps))
  }

  const Unset := Output("", "", Video("", "", Quality("", 0, 0), Resolution("", 0, 0, None)), Audio("", 0))

  /** Every field is given explicitly. */
  predicate Explicit(x: Output) {
    && x.container != "" && x.video.codec != "" && x.video.encoder != "" && x.video.quality.mode in {"quality", "crf"}
    && x.video.resolution.mode != "" && x.video.resolution.width != 0 && x.video.resolution.height != 0
    && x.video.resolution.upscale.Some? && x.audio.codec != "" && x.audio.bitrateKbps != 0
  }

  /** What the encoder reads of a quality. */
  function Effective(q: Quality): (string, int) {
    (q.mode, if q.mode == "quality" then q.value else if q.mode == "crf" then q.crf else 0)
  }

  /** A request that gives nothing gets the preset; one that gives everything gets
      what it gave; and what a request gives wins over any preset in the same way,
      however the presets were merged before. */
  lemma MergeLaws(b: Output, c: Output, x: Output)
    ensures Merge(b, Unset).(preset := b.preset) == b
    ensures Explicit(x) ==>
              && Merge(b, x).(video := x.video) == x
              && Merge(b, x).video.(quality := x.video.quality) == x.video
              && Effective(Merge(b, x).video.quality) == Effective(x.video.quality)
    ensures Merge(Merge(b, c), x).(video := x.video) == Merge(b, Merge(c, x)).(video := x.video)
    ensures Effective(Merge(Merge(b, c), x).video.quality) == Effective(Merge(b, Merge(c, x)).video.quality)
    ensures Merge(Merge(b, c), x).video.resolution == Merge(b, Merge(c, x)).video.resolution
  {
  }

  predicate Compatible(o: Output) {
    match o.container
    case "mp4" => o.video.codec in {"h264", "hevc", "av1"} && o.audio.codec == "aac"
    case "webm" => o.video.codec in {"vp9", "av1"} && o.audio.codec == "opus"
    case "mkv" => o.video.codec in {"h264", "hevc", "av1", "vp9"} && o.audio.codec in {"aac", "opus", "flac"}
    case _ => false
  }

  const AutoBase := Output("", "mp4",
                           Video("h264", "auto", Quality("auto", 0, 0), Resolution("auto", 0, 0, None)),
                           Audio("aac", AutoDefaultAudioKbps))

  /** The defaults a request starts from. */
  function PresetBase(preset: string): Result<Output> {
    match preset
    case "" => Ok(AutoBase)
    case "web-1080p" =>
      Ok(AutoBase.(video := AutoBase.video.(quality := Quality("quality", 72, 0),
                                            resolution := Resolution("fit", 1920, 1080, None)),
                   audio := Audio("aac", 160)))
    case "archive-av1" =>
      Ok(Output("", "mkv",
                Video("av1", "auto", Quality("quality", 80, 0), Resolution("source", 0, 0, None)),
                Audio("opus", 192)))
    case _ => Err("unknown preset")
  }

  function NvencSupports(codec: string): bool { codec in {"h264", "hevc", "av1"} }

  /** The highest CRF a codec accepts; the lowest is 0. */
  function CrfMax(codec: string): Result<int> {
    if codec in {"av1", "vp9"} then Ok(63)
    else if codec in {"h264", "hevc"} then Ok(51)
    else Err("unsupported video codec")
  }

  /** The CRF handed to the encoder. */
  function Crf(v: Video): Result<int> {
    match CrfMax(v.codec)
    case Err(m) => Err(m)
    case Ok(max) => if v.quality.mode == "crf" then Ok(v.quality.crf) else Ok(max - TruncDiv(v.quality.value * max, 100))
  }

  /** Division as the source does it: towards zero. */
  function TruncDiv(a: int, b: int): int
    requires b > 0
  {
    if a >= 0 then a / b else -(-a / b)
  }

  function CheckQuality(v: Video): Result<()> {
    match v.quality.mode
    case "auto" => Ok(())
    case "quality" => if 0 <= v.quality.value <= 100 then Ok(()) else Err("quality out of range")
    case "crf" =>
      (match CrfMax(v.codec)
       case Err(m) => Err(m)
       case Ok(max) => if 0 <= v.quality.crf <= max then Ok(()) else Err("CRF out of range"))
    case _ => Err("unsupported quality mode")
  }

  function CheckResolution(r: Resolution, c: Limits): Result<()> {
    match r.mode
    case "auto" => Ok(())
    case "source" => Ok(())
    case "fit" =>
      if r.width < 2 || r.height < 2 || r.width > c.maxWidth || r.height > c.maxHeight
      then Err("resolution out of range") else Ok(())
    case _ => Err("unsupported resolution mode")
  }

  function CheckEncoder(v: Video): Result<()> {
    match v.encoder
    case "auto" => Ok(())
    case "software" => Ok(())
    case "vaapi" => Ok(())
    case "nvenc" => if NvencSupports(v.codec) then Ok(()) else Err("unsupported video encoder for codec")
    case _ => Err("unsupported video encoder")
  }

  function CheckOutput(o: Output, c: Limits): Result<Output> {
    if !Compatible(o) then Err("incompatible container/codec combination")
    else if CheckEncoder(o.video).Err? then Err(CheckEncoder(o.video).message)
    else if !(16 <= o.audio.bitrateKbps <= 512) then Err("audio bitrate out of range")
    else if CheckQuality(o.video).Err? then Err(CheckQuality(o.video).message)
    else if CheckResolution(o.video.resolution, c).Err? then Err(CheckResolution(o.video.resolution, c).message)
    else Ok(o)
  }

  /** The specification stored with a job, or the reason for refusing the request. */
  function Normalize(r: Request, c: Limits, validName: string -> bool, validSha: string -> bool): Result<Output> {
    if r.input.size <= 0 || r.input.size > c.capacity || !validName(r.input.filename) then Err("invalid input")
    else if r.input.sha256 != "" && !validSha(r.input.sha256) then Err("input sha256 must be hex SHA-256")
    else match PresetBase(r.output.preset)
         case Err(m) => Err(m)
         case Ok(base) => CheckOutput(Merge(base, r.output), c)
  }

  /** What a request asks for: each field as given, or else as its preset has it. */
  function Asked(x: Output): Output {
    var archive, web := x.preset == "archive-av1", x.preset == "web-1080p";
    var q, p := x.video.quality, x.video.resolution;
    Output(
      x.preset,
      if x.container != "" then x.container else if archive then "mkv" else "mp4",
      Video(if x.video.codec != "" then x.video.codec else if archive then "av1" else "h264",
            if x.video.encoder != "" then x.video.encoder else "auto",
            Quality(if q.mode != "" then q.mode else if archive || web then "quality" else "auto",
                    if q.mode == "quality" then q.value else if archive then 80 else if web then 72 else 0,
                    if q.mode == "crf" then q.crf else 0),
            Resolution(if p.mode != "" then p.mode else if archive then "source" else if web then "fit" else "auto",
                       if p.width != 0 then p.width else if web then 1920 else 0,
                       if p.height != 0 then p.height else if web then 1080 else 0,
                       p.upscale)),
      Audio(if x.audio.codec != "" then x.audio.codec else if archive then "opus" else "aac",
            if x.audio.bitrateKbps != 0 then x.audio.bitrateKbps else if archive then 192 else if web then 160 else 128))
  }

  /** What the service can encode within its limits. */
  predicate Offered(o: Output, c: Limits) {
    var video, audio, size := o.video, o.audio, o.video.resolution;
    && (|| (o.container == "mp4" && video.codec in {"h264", "hevc", "av1"} && audio.codec == "aac")
        || (o.container == "webm" && video.codec in {"vp9", "av1"} && audio.codec == "opus")
        || (o.container == "mkv" && video.codec in {"h264", "hevc", "vp9", "av1"} && audio.codec in {"aac", "opus", "flac"}))
    && (video.encoder in {"auto", "software", "vaapi"} || (video.encoder == "nvenc" && video.codec != "vp9"))
    && 16 <= audio.bitrateKbps <= 512
    && (|| video.quality.mode == "auto"
        || (video.quality.mode == "quality" && 0 <= video.quality.value <= 100)
        || (video.quality.mode == "crf" && 0 <= video.quality.crf <= if video.codec in {"h264", "hevc"} then 51 else 63))
    && (|| size.mode in {"auto", "source"}
        || (size.mode == "fit" && 2 <= size.width <= c.maxWidth && 2 <= size.height <= c.maxHeight))
  }

  lemma PresetsGive(x: Output)
    ensures PresetBase(x.preset).Ok? <==> x.preset in {"", "web-1080p", "archive-av1"}
    ensures PresetBase(x.preset).Ok? ==> Merge(PresetBase(x.preset).value, x) == Asked(x)
  {
  }

  lemma CheckedExactly(o: Output, c: Limits)
    ensures CheckOutput(o, c).Ok? <==> Offered(o, c)
    ensures CheckOutput(o, c).Ok? ==> CheckOutput(o, c).value == o
  {
  }

  /** When a request is accepted, and what it then asks for. */
  lemma AcceptedExactly(r: Request, c: Limits, vn: string -> bool, vs: string -> bool)
    ensures Normalize(r, c, vn, vs).Ok? <==>
              && r.output.preset in {"", "web-1080p", "archive-av1"}
              && 0 < r.input.size <= c.capacity && vn(r.input.filename) && (r.input.sha256 == "" || vs(r.input.sha256))
              && Offered(Asked(r.output), c)
    ensures Normalize(r, c, vn, vs).Ok? ==> Normalize(r, c, vn, vs).value == Asked(r.output)
  {
    hide PresetBase, Merge, CheckOutput, Asked, Offered;
    PresetsGive(r.output);
    CheckedExactly(Asked(r.output), c);
  }

  /** The CRF of a quality is the given one, or the highest of the codec less the
      whole part of that share of it. */
  lemma CrfExactly(v: Video)
    requires v.codec in {"h264", "hevc", "av1", "vp9"}
    ensures v.quality.mode == "crf" ==> Crf(v) == Ok(v.quality.crf)
    ensures var max := if v.codec in {"h264", "hevc"} then 51 else 63;
            v.quality.mode == "quality" && v.quality.value >= 0 ==>
              Crf(v).Ok? && 100 * (max - Crf(v).value) <= v.quality.value * max < 100 * (max - Crf(v).value + 1)
  {
  }

  /** What an accepted specification guarantees to the encoder. */
  ghost predicate Encodable(o: Output) {
    && Compatible(o)
    && 16 <= o.audio.bitrateKbps <= 512
    && (o.video.encoder == "nvenc" ==> NvencSupports(o.video.codec))
    && (o.video.resolution.mode == "fit" ==> o.video.resolution.width >= 2 && o.video.resolution.height >= 2)
    && (o.video.quality.mode != "auto" ==>
          Crf(o.video).Ok? && CrfMax(o.video.codec).Ok? && 0 <= Crf(o.video).value <= CrfMax(o.video.codec).value)
  }

  /** Every accepted specification can be encoded, with a CRF inside the codec's range. */
  lemma AcceptedIsEncodable(r: Request, c: Limits, vn: string -> bool, vs: string -> bool)
    requires Normalize(r, c, vn, vs).Ok?
    ensures Encodable(Normalize(r, c, vn, vs).value)
  {
    var o := Normalize(r, c, vn, vs).value;
    if o.video.quality.mode == "quality" {
      QualityInRange(o.video.quality.value, CrfMax(o.video.codec).value);
    }
  }

  lemma QualityInRange(value: int, max: int)
    requires 0 <= value <= 100 && 0 <= max
    ensures 0 <= max - TruncDiv(value * max, 100) <= max
  {
    assert 0 <= value * max;
    assert value * max <= 100 * max by {
      assert (100 - value) * max >= 0;
    }
  }

  /** A higher quality never yields a higher CRF, and the ends of the scale meet the ends of the range. */
  lemma QualityMonotone(v: Video, value: int)
    requires CrfMax(v.codec).Ok? && v.quality.mode == "quality" && 0 <= v.quality.value <= value <= 100
    ensures Crf(v.(quality := v.quality.(value := value))).value <= Crf(v).value
    ensures v.quality.value == 0 ==> Crf(v) == CrfMax(v.codec)
    ensures v.quality.value == 100 ==> Crf(v) == Ok(0)
  {
    var max := CrfMax(v.codec).value;
    assert 0 <= v.quality.value * max <= value * max;
  }

  /** Normalization is a projection: the stored specification, submitted again, is accepted unchanged. */
  lemma NormalizeIsProjection(r: Request, c: Limits, vn: string -> bool, vs: string -> bool)
    requires Normalize(r, c, vn, vs).Ok?
    ensures Normalize(r.(output := Normalize(r, c, vn, vs).value), c, vn, vs) == Normalize(r, c, vn, vs)
  {
    var base := PresetBase(r.output.preset).value;
    var o := Merge(base, r.output);
    assert Merge(base, o) == o;
  }

  /** What a reservation row records. */
  datatype Estimate = Estimate(output: nat, safety: nat, reserved: nat)

  /** The spool holds the input only; the estimates of the output and its safety margin are bookkeeping. */
  function Reservation(n: nat, o: Output): (r: Estimate)
    ensures r.reserved == n && r.safety * 10 <= r.output <= n
  {
    var output := n * (if o.preset == "archive-av1" then 100 else 60) / 100;
    Estimate(output, output / 10, n)
  }

  /** The output is estimated at 60 % of the input, for the archive at all of it, and the margin at a tenth of that. */
  lemma EstimatesExactly(n: nat, o: Output)
    ensures var r, share := Reservation(n, o), if o.preset == "archive-av1" then 100 else 60;
            100 * r.output <= n * share < 100 * (r.output + 1) && 10 * r.safety <= r.output < 10 * (r.safety + 1)
  {
  }

  /* ---- artifact names ---- */

  function ArtifactName(o: Output): string { "output." + o.container }

  /** The file name suffix from the last dot on. */
  function Ext(name: string): string
  {
    if name == "" then ""
    else if name[|name| - 1] == '.' then "."
    else
      var rest := Ext(name[..|name| - 1]);
      if rest == "" then "" else rest + [name[|name| - 1]]
  }

  /** The extension runs from the last dot to the end, or is empty if there is none. */
  lemma {:induction false} ExtExactly(name: string)
    ensures Ext(name) == "" <==> forall i :: 0 <= i < |name| ==> name[i] != '.'
    ensures Ext(name) != "" ==>
              && |Ext(name)| <= |name| && name[|name| - |Ext(name)|..] == Ext(name) && Ext(name)[0] == '.'
              && forall i :: 0 < i < |Ext(name)| ==> Ext(name)[i] != '.'
  {
    if name != "" && name[|name| - 1] != '.' {
      var rest := name[..|name| - 1];
      ExtExactly(rest);
      if Ext(rest) != "" { assert name[|name| - |Ext(name)|..] == rest[|rest| - |Ext(rest)|..] + [name[|name| - 1]]; }
    }
  }

  lemma {:induction false} ExtAfterDot(stem: string, c: string)
    requires forall i :: 0 <= i < |c| ==> c[i] != '.'
    ensures Ext(stem + "." + c) == "." + c
  {
    var name := stem + "." + c;
    if c == "" {
      assert name == stem + ".";
    } else {
      var less := c[..|c| - 1];
      assert name[..|name| - 1] == stem + "." + less;
      ExtAfterDot(stem, less);
      assert c == less + [c[|c| - 1]];
    }
  }

  /** The artifact of an accepted specification carries its container as extension. */
  lemma ArtifactExt(o: Output)
    requires Compatible(o)
    ensures Ext(ArtifactName(o)) == "." + o.container
    ensures ArtifactName(o) != "" && forall i :: 0 <= i < |ArtifactName(o)| ==> ArtifactName(o)[i] != '/'
  {
    assert o.container == "mp4" || o.container == "webm" || o.container == "mkv";
    assert "output." + o.container == "output" + "." + o.container;
    ExtAfterDot("output", o.container);
  }
}
