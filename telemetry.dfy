/**
 * The capture-record side of the rig (class `Data` of data.py): the storage
 * paths of one capture's three artifacts, the meta record the portal reads,
 * with the interval since the previous record, and the label catalogue for
 * live labelling.
 */
module Telemetry {
  import opened Wrappers
  import Text

  /** The JSON values a record holds. */
  datatype Json =
    | Null
    | Bool(b: bool)
    | Int(i: int)
    | Num(r: real)
    | Str(s: string)
    | Arr(items: seq<Json>)
    | Obj(fields: map<string, Json>)

  /**
   * A `datetime`: microseconds on a fixed epoch, and the text
   * `strftime("%Y-%m-%d_%H-%M-%S-%f")` renders it as.
   */
  datatype Instant = Instant(micros: int, text: string)

  /**
   * Why `generate_meta` raised: a dictionary lookup that failed
   * (`KeyError(key)`), or `open` given the `None` stored under `key`
   * (`TypeError`).
   */
  datatype Error = KeyError(key: string) | TypeError(key: string)

  /** The record written next to each capture: `{"type", "id", "attributes"}`. */
  datatype MetaRecord = MetaRecord(kind: string, id: string, attributes: map<string, Json>)

  // ---------------------------------------------------------------------------
  // File paths
  // ---------------------------------------------------------------------------

  /** The three artifact types, in the order their paths are made. */
  const Kinds: seq<string> := ["camera", "thermal", "meta"]

  /** The width the measurement id is zero-padded to in file names. */
  const IdWidth: nat := 5

  function Extension(kind: string): string {
    if kind == "meta" then ".json" else ".jpg"
  }

  /** `<root>/logs/<session>/<kind>/<activeLabel>`: the directory of one artifact type. */
  function ArtifactDir(root: string, session: string, kind: string, activeLabel: string): string {
    root + "/logs/" + session + "/" + kind + "/" + activeLabel
  }

  /** `<session>_<zfill5(id)>_<stamp>_<kind>_<activeLabel>.<ext>` */
  function FileName(session: string, stamp: string, id: int, kind: string, activeLabel: string): string {
    session + "_" + Text.ZFill(Text.IntToString(id), IdWidth) + "_" + (stamp + "_" + kind + "_" + activeLabel + Extension(kind))
  }

  function ArtifactPath(root: string, session: string, stamp: string, id: int, kind: string, activeLabel: string): string {
    (ArtifactDir(root, session, kind, activeLabel) + "/") + FileName(session, stamp, id, kind, activeLabel)
  }

  /** The directories `generate_filepaths` creates for one capture. */
  function ArtifactDirs(root: string, session: string, activeLabel: string): (dirs: set<string>)
    ensures forall k :: k in Kinds ==> ArtifactDir(root, session, k, activeLabel) in dirs
  {
    set k | k in Kinds :: ArtifactDir(root, session, k, activeLabel)
  }

  /**
   * A worked example: the camera file of measurement 3 of session "sess1",
   * labelled "Browning".
   */
  lemma ExampleCameraFileName(stamp: string)
    ensures FileName("sess1", stamp, 3, "camera", "Browning") == "sess1_00003_" + stamp + "_camera_Browning.jpg"
  {
    var z := Text.ZFill(Text.IntToString(3), IdWidth);
    assert Text.IntToString(3) == "3";
    assert Text.Zeros(4) == "0000";
    assert z == "00003";
    assert Extension("camera") == ".jpg";
    assert "sess1" + "_" + z + "_" == "sess1_00003_";
    assert "_" + "camera" + "_" + "Browning" + ".jpg" == "_camera_Browning.jpg";
  }

  /** The measurement id is padded to at least five characters, and never truncated. */
  lemma PaddedIdWidth(id: int)
    ensures var s := Text.IntToString(id);
      var z := Text.ZFill(s, IdWidth);
      |z| == (if |s| >= IdWidth then |s| else IdWidth) && (|s| >= IdWidth ==> z == s)
  {
  }

  /** The padded id in a file name reads back as the measurement id. */
  lemma PaddedIdDecodes(id: int)
    ensures Text.IsNumeral(Text.ZFill(Text.IntToString(id), IdWidth))
    ensures Text.ParseSigned(Text.ZFill(Text.IntToString(id), IdWidth)) == id
  {
    Text.ZFillRoundTrip(id, IdWidth);
  }

  /** The three artifact types of one capture never share a path. */
  lemma KindsNeverCollide(root: string, session: string, stamp: string, id: int, activeLabel: string, k1: string, k2: string)
    requires k1 in Kinds && k2 in Kinds && k1 != k2
    ensures ArtifactPath(root, session, stamp, id, k1, activeLabel) != ArtifactPath(root, session, stamp, id, k2, activeLabel)
  {
    var p := root + "/logs/" + session + "/";
    var rest1 := k1 + "/" + activeLabel + "/" + FileName(session, stamp, id, k1, activeLabel);
    var rest2 := k2 + "/" + activeLabel + "/" + FileName(session, stamp, id, k2, activeLabel);
    assert ArtifactPath(root, session, stamp, id, k1, activeLabel) == p + rest1;
    assert ArtifactPath(root, session, stamp, id, k2, activeLabel) == p + rest2;
    assert rest1[0] == k1[0] && rest2[0] == k2[0];
    Text.DifferAfterPrefix(p, rest1, rest2);
  }

  /** Two measurements of one session never share a path, even with the same time stamp. */
  lemma MeasurementsNeverCollide(root: string, session: string, stamp: string, id1: int, id2: int, kind: string, activeLabel: string)
    requires id1 != id2
    ensures ArtifactPath(root, session, stamp, id1, kind, activeLabel) != ArtifactPath(root, session, stamp, id2, kind, activeLabel)
  {
    var z1 := Text.ZFill(Text.IntToString(id1), IdWidth);
    var z2 := Text.ZFill(Text.IntToString(id2), IdWidth);
    Text.ZFillInjective(id1, id2, IdWidth);
    Text.PaddedHasNoSeparator(id1, IdWidth);
    Text.PaddedHasNoSeparator(id2, IdWidth);
    var tail := stamp + "_" + kind + "_" + activeLabel + Extension(kind);
    Text.SeparatedFieldsDiffer(session + "_", z1, z2, tail, tail);
    Text.PrefixKeepsDifference(ArtifactDir(root, session, kind, activeLabel) + "/",
      FileName(session, stamp, id1, kind, activeLabel), FileName(session, stamp, id2, kind, activeLabel));
  }

  // ---------------------------------------------------------------------------
  // Public URLs
  // ---------------------------------------------------------------------------

  const PublicBase: string := "https://storage.googleapis.com/onionbucket"

  /**
   * `_get_public_path`: no URL for a missing or empty path; otherwise the
   * bucket URL, a slash and the local path. The source computes the path
   * with the local root removed but discards it, so the local path is
   * kept whole.
   */
  function PublicPath(local: Option<string>): (url: Option<string>)
    ensures url.None? <==> (local.None? || local.value == "")
    ensures url.Some? ==> |url.value| == |PublicBase| + 1 + |local.value|
  {
    if local.Some? && local.value != "" then Some(PublicBase + "/" + local.value) else None
  }

  /** The local path a public URL names, when it is one of the bucket's URLs. */
  function LocalPath(url: string): Option<string> {
    var prefix := PublicBase + "/";
    if |url| > |prefix| && url[..|prefix|] == prefix then Some(url[|prefix|..]) else None
  }

  /** Every URL made from a local path leads back to that same, unshortened path. */
  lemma PublicPathRoundTrip(local: Option<string>)
    requires local.Some? && local.value != ""
    ensures PublicPath(local).Some? && LocalPath(PublicPath(local).value) == local
  {
    var prefix := PublicBase + "/";
    var url := PublicBase + "/" + local.value;
    assert url == prefix + local.value;
    assert url[..|prefix|] == prefix && url[|prefix|..] == local.value;
  }

  function UrlValue(url: Option<string>): Json {
    if url.Some? then Str(url.value) else Null
  }

  // ---------------------------------------------------------------------------
  // Interval
  // ---------------------------------------------------------------------------

  /** Microseconds in one tenth of a second. */
  const Tenth: int := 100000

  /**
   * `round(seconds, 1)` on an exact number of microseconds, in tenths of a
   * second: the nearest tenth, and the even one on a tie.
   */
  function RoundTenths(micros: int): (t: int)
    ensures -Tenth / 2 <= t * Tenth - micros <= Tenth / 2
    ensures (t * Tenth - micros == Tenth / 2 || t * Tenth - micros == -Tenth / 2) ==> t % 2 == 0
  {
    var q, r := micros / Tenth, micros % Tenth;
    if 2 * r < Tenth then q
    else if 2 * r > Tenth then q + 1
    else if q % 2 == 0 then q
    else q + 1
  }

  /** The rounding is the only integer with those two properties. */
  lemma RoundTenthsUnique(micros: int, t: int)
    requires -Tenth / 2 <= t * Tenth - micros <= Tenth / 2
    requires (t * Tenth - micros == Tenth / 2 || t * Tenth - micros == -Tenth / 2) ==> t % 2 == 0
    ensures t == RoundTenths(micros)
  {
  }

  /** The `interval` attribute: seconds since the baseline, to one decimal. */
  function IntervalValue(baseline: Instant, timer: Instant): Json {
    Num(RoundTenths(timer.micros - baseline.micros) as real / 10.0)
  }

  // ---------------------------------------------------------------------------
  // Meta record
  // ---------------------------------------------------------------------------

  const ThermalKeys: seq<string> := ["temperature", "thermal_history"]

  const ControlKeys: seq<string> := [
    "servo_setpoint", "servo_setpoint_history", "servo_achieved", "servo_achieved_history",
    "temperature_target", "pid_enabled", "p_coefficient", "i_coefficient", "d_coefficient",
    "p_component", "i_component", "d_component"]

  /** The attributes the record takes from the capture itself rather than from a snapshot. */
  const OwnKeys: seq<string> := [
    "session_name", "interval", "active_label", "measurement_id", "time_stamp",
    "camera_filepath", "thermal_filepath"]

  /** The first of `keys` missing from `m`: the key a run of lookups raises `KeyError` on. */
  function FirstMissing<V>(keys: seq<string>, m: map<string, V>): (r: Option<string>)
    ensures r.None? <==> forall k :: k in keys ==> k in m
    ensures r.Some? ==>
      (exists i :: 0 <= i < |keys| && keys[i] == r.value && r.value !in m && forall j :: 0 <= j < i ==> keys[j] in m)
  {
    if keys == [] then None
    else if keys[0] !in m then Some(keys[0])
    else
      var r := FirstMissing(keys[1..], m);
      if r.Some? then
        var i :| 0 <= i < |keys[1..]| && keys[1..][i] == r.value && r.value !in m
          && forall j :: 0 <= j < i ==> keys[1..][j] in m;
        assert keys[i + 1] == r.value;
        r
      else
        assert forall k :: k in keys ==> k == keys[0] || k in keys[1..];
        r
  }

  /** No attribute name is both the capture's own and a snapshot's, or in both snapshots. */
  lemma KeyListsDisjoint()
    ensures forall k :: k in OwnKeys ==> k !in ThermalKeys && k !in ControlKeys
    ensures forall k :: k in ThermalKeys ==> k !in ControlKeys
  {
  }

  /** The record's attributes taken verbatim from a snapshot. */
  function Copied(keys: seq<string>, m: map<string, Json>): (c: map<string, Json>)
    requires forall k :: k in keys ==> k in m
    ensures forall k :: k in c <==> k in keys
    ensures forall k :: k in keys ==> c[k] == m[k]
  {
    map k | k in keys :: m[k]
  }

  /** `"<session>_<measurement_id>_<time_stamp>"`, the id unpadded. */
  function RecordId(session: string, id: int, timer: Instant): string {
    session + "_" + Text.IntToString(id) + "_" + timer.text
  }

  /** The attributes the record takes from the capture itself. */
  function OwnAttributes(baseline: Instant, session: string, timer: Instant, id: int, activeLabel: string,
                         camera: Option<string>, thermalImage: Option<string>): map<string, Json>
  {
    map[
      "session_name" := Str(session),
      "interval" := IntervalValue(baseline, timer),
      "active_label" := Str(activeLabel),
      "measurement_id" := Int(id),
      "time_stamp" := Str(timer.text),
      "camera_filepath" := UrlValue(PublicPath(camera)),
      "thermal_filepath" := UrlValue(PublicPath(thermalImage))]
  }

  /** The record of a capture whose lookups all succeed. */
  function Record(baseline: Instant, session: string, timer: Instant, id: int, activeLabel: string,
                  camera: Option<string>, thermalImage: Option<string>,
                  thermal: map<string, Json>, control: map<string, Json>): MetaRecord
    requires forall k :: k in ThermalKeys ==> k in thermal
    requires forall k :: k in ControlKeys ==> k in control
  {
    var own := OwnAttributes(baseline, session, timer, id, activeLabel, camera, thermalImage);
    MetaRecord("meta", RecordId(session, id, timer), own + Copied(ThermalKeys, thermal) + Copied(ControlKeys, control))
  }

  /**
   * The work of `generate_meta` after the baseline has moved: look up the
   * camera and thermal paths, each thermal and control field in turn, and
   * last the meta path the record is written to. The first missing key is
   * the `KeyError` raised; a `None` meta path makes `open` raise `TypeError`.
   */
  function Compose(baseline: Instant, session: string, timer: Instant, id: int, activeLabel: string,
                   filepaths: map<string, Option<string>>,
                   thermal: map<string, Json>, control: map<string, Json>): (r: Result<MetaRecord, Error>)
    ensures r.Success? <==>
      && (forall k :: k in Kinds ==> k in filepaths)
      && (forall k :: k in ThermalKeys ==> k in thermal)
      && (forall k :: k in ControlKeys ==> k in control)
      && "meta" in filepaths && filepaths["meta"].Some?
    ensures r.Failure? && r.error.KeyError? ==>
      || (r.error.key in Kinds && r.error.key !in filepaths)
      || (r.error.key in ThermalKeys && r.error.key !in thermal)
      || (r.error.key in ControlKeys && r.error.key !in control)
    ensures r.Failure? && r.error.TypeError? ==>
      r.error.key == "meta" && "meta" in filepaths && filepaths["meta"].None?
    ensures r.Success? ==>
      && "camera" in filepaths && "thermal" in filepaths
      && r.value == Record(baseline, session, timer, id, activeLabel, filepaths["camera"], filepaths["thermal"], thermal, control)
  {
    if "camera" !in filepaths then Failure(KeyError("camera"))
    else if "thermal" !in filepaths then Failure(KeyError("thermal"))
    else if FirstMissing(ThermalKeys, thermal).Some? then Failure(KeyError(FirstMissing(ThermalKeys, thermal).value))
    else if FirstMissing(ControlKeys, control).Some? then Failure(KeyError(FirstMissing(ControlKeys, control).value))
    else if "meta" !in filepaths then Failure(KeyError("meta"))
    else if filepaths["meta"].None? then Failure(TypeError("meta"))
    else Success(Record(baseline, session, timer, id, activeLabel, filepaths["camera"], filepaths["thermal"], thermal, control))
  }

  /** The dictionary a lookup of `generate_meta` reads. */
  datatype Source = Paths | ThermalData | ControlData

  /** Lookups of `keys`, in order, in the dictionary `src`. */
  function Reads(src: Source, keys: seq<string>): (l: seq<(Source, string)>)
    ensures |l| == |keys| && forall i :: 0 <= i < |keys| ==> l[i] == (src, keys[i])
  {
    seq(|keys|, i requires 0 <= i < |keys| => (src, keys[i]))
  }

  /** The lookups of `generate_meta`, in the order it makes them. */
  function Lookups(): seq<(Source, string)> {
    Reads(Paths, ["camera", "thermal"]) + Reads(ThermalData, ThermalKeys) + Reads(ControlData, ControlKeys) + Reads(Paths, ["meta"])
  }

  predicate Found(lookup: (Source, string), filepaths: map<string, Option<string>>,
                  thermal: map<string, Json>, control: map<string, Json>)
  {
    match lookup.0
    case Paths => lookup.1 in filepaths
    case ThermalData => lookup.1 in thermal
    case ControlData => lookup.1 in control
  }

  /** The lookup at `i` fails and every earlier one succeeds. */
  predicate FailsFirstAt(l: seq<(Source, string)>, i: int, filepaths: map<string, Option<string>>,
                         thermal: map<string, Json>, control: map<string, Json>)
  {
    && 0 <= i < |l|
    && !Found(l[i], filepaths, thermal, control)
    && forall j :: 0 <= j < i ==> Found(l[j], filepaths, thermal, control)
  }

  /** A first failure inside `mid` stays the first failure once lookups that all succeed come before it. */
  lemma FailsFirstAfter(pre: seq<(Source, string)>, mid: seq<(Source, string)>, post: seq<(Source, string)>, k: int,
                        filepaths: map<string, Option<string>>, thermal: map<string, Json>, control: map<string, Json>)
    requires forall j :: 0 <= j < |pre| ==> Found(pre[j], filepaths, thermal, control)
    requires FailsFirstAt(mid, k, filepaths, thermal, control)
    ensures FailsFirstAt(pre + mid + post, |pre| + k, filepaths, thermal, control)
    ensures (pre + mid + post)[|pre| + k] == mid[k]
  {
    var l := pre + mid + post;
    assert forall j :: 0 <= j < |pre| ==> l[j] == pre[j];
    assert forall j :: 0 <= j < |mid| ==> l[|pre| + j] == mid[j];
    forall j | 0 <= j < |pre| + k
      ensures Found(l[j], filepaths, thermal, control)
    {
      if j >= |pre| {
        assert l[j] == mid[j - |pre|];
      }
    }
  }

  /**
   * `generate_meta` raises `KeyError` on the first of its lookups, in
   * program order, that fails: every lookup before it succeeded.
   */
  lemma ComposeFailsAtFirst(baseline: Instant, session: string, timer: Instant, id: int, activeLabel: string,
                            filepaths: map<string, Option<string>>,
                            thermal: map<string, Json>, control: map<string, Json>)
    ensures var r := Compose(baseline, session, timer, id, activeLabel, filepaths, thermal, control);
      r.Failure? && r.error.KeyError? ==>
        exists i :: FailsFirstAt(Lookups(), i, filepaths, thermal, control) && Lookups()[i].1 == r.error.key
  {
    var a := Reads(Paths, ["camera", "thermal"]);
    var t := Reads(ThermalData, ThermalKeys);
    var c := Reads(ControlData, ControlKeys);
    var m := Reads(Paths, ["meta"]);
    var r := Compose(baseline, session, timer, id, activeLabel, filepaths, thermal, control);
    if "camera" !in filepaths {
      FailsFirstAfter([], a, t + c + m, 0, filepaths, thermal, control);
      assert [] + a + (t + c + m) == Lookups();
    } else if "thermal" !in filepaths {
      FailsFirstAfter([], a, t + c + m, 1, filepaths, thermal, control);
      assert [] + a + (t + c + m) == Lookups();
    } else if FirstMissing(ThermalKeys, thermal).Some? {
      var k :| 0 <= k < |ThermalKeys| && ThermalKeys[k] == r.error.key && r.error.key !in thermal
        && forall j :: 0 <= j < k ==> ThermalKeys[j] in thermal;
      FailsFirstAfter(a, t, c + m, k, filepaths, thermal, control);
      assert a + t + (c + m) == Lookups();
    } else if FirstMissing(ControlKeys, control).Some? {
      var k :| 0 <= k < |ControlKeys| && ControlKeys[k] == r.error.key && r.error.key !in control
        && forall j :: 0 <= j < k ==> ControlKeys[j] in control;
      FailsFirstAfter(a + t, c, m, k, filepaths, thermal, control);
      assert FailsFirstAt(Lookups(), |a + t| + k, filepaths, thermal, control);
    } else if "meta" !in filepaths {
      FailsFirstAfter(a + t + c, m, [], 0, filepaths, thermal, control);
      assert a + t + c + m + [] == Lookups();
    }
  }

  /** A record's attribute names are exactly the portal's, and snapshot fields are copied verbatim. */
  lemma RecordAttributes(baseline: Instant, session: string, timer: Instant, id: int, activeLabel: string,
                         camera: Option<string>, thermalImage: Option<string>,
                         thermal: map<string, Json>, control: map<string, Json>)
    requires forall k :: k in ThermalKeys ==> k in thermal
    requires forall k :: k in ControlKeys ==> k in control
    ensures var a := Record(baseline, session, timer, id, activeLabel, camera, thermalImage, thermal, control).attributes;
      && (forall k :: k in a <==> k in OwnKeys || k in ThermalKeys || k in ControlKeys)
      && (forall k :: k in ThermalKeys ==> a[k] == thermal[k])
      && (forall k :: k in ControlKeys ==> a[k] == control[k])
  {
    var own := OwnAttributes(baseline, session, timer, id, activeLabel, camera, thermalImage);
    var ct := Copied(ThermalKeys, thermal);
    var cc := Copied(ControlKeys, control);
    KeyListsDisjoint();
    assert forall k :: k in own <==> k in OwnKeys;
  }

  /** A record's own attributes are those of the capture, not overwritten by any snapshot field. */
  lemma RecordOwnFields(baseline: Instant, session: string, timer: Instant, id: int, activeLabel: string,
                        camera: Option<string>, thermalImage: Option<string>,
                        thermal: map<string, Json>, control: map<string, Json>)
    requires forall k :: k in ThermalKeys ==> k in thermal
    requires forall k :: k in ControlKeys ==> k in control
    ensures var rec := Record(baseline, session, timer, id, activeLabel, camera, thermalImage, thermal, control);
      var own := OwnAttributes(baseline, session, timer, id, activeLabel, camera, thermalImage);
      && rec.kind == "meta"
      && rec.id == session + "_" + Text.IntToString(id) + "_" + timer.text
      && (forall k :: k in OwnKeys ==> k in own && k in rec.attributes && rec.attributes[k] == own[k])
  {
    KeyListsDisjoint();
  }

  /** The values of the capture's own attributes: session, label, unpadded id, stamp, interval and URLs. */
  lemma OwnAttributeValues(baseline: Instant, session: string, timer: Instant, id: int, activeLabel: string,
                           camera: Option<string>, thermalImage: Option<string>)
    ensures var a := OwnAttributes(baseline, session, timer, id, activeLabel, camera, thermalImage);
      && (forall k :: k in a <==> k in OwnKeys)
      && a["session_name"] == Str(session) && a["active_label"] == Str(activeLabel)
      && a["measurement_id"] == Int(id) && a["time_stamp"] == Str(timer.text)
      && a["interval"] == Num(RoundTenths(timer.micros - baseline.micros) as real / 10.0)
      && a["camera_filepath"] == UrlValue(PublicPath(camera))
      && a["thermal_filepath"] == UrlValue(PublicPath(thermalImage))
  {
  }

  /** A composed record's interval is measured from the baseline it was given. */
  lemma ComposedInterval(baseline: Instant, session: string, timer: Instant, id: int, activeLabel: string,
                         filepaths: map<string, Option<string>>,
                         thermal: map<string, Json>, control: map<string, Json>)
    requires forall k :: k in Kinds ==> k in filepaths
    requires forall k :: k in ThermalKeys ==> k in thermal
    requires forall k :: k in ControlKeys ==> k in control
    requires "meta" in filepaths && filepaths["meta"].Some?
    ensures Compose(baseline, session, timer, id, activeLabel, filepaths, thermal, control).Success?
    ensures var a := Compose(baseline, session, timer, id, activeLabel, filepaths, thermal, control).value.attributes;
      "interval" in a && a["interval"] == Num(RoundTenths(timer.micros - baseline.micros) as real / 10.0)
  {
    assert "camera" in filepaths && "thermal" in filepaths;
    assert Compose(baseline, session, timer, id, activeLabel, filepaths, thermal, control)
        == Success(Record(baseline, session, timer, id, activeLabel, filepaths["camera"], filepaths["thermal"], thermal, control));
    RecordOwnFields(baseline, session, timer, id, activeLabel, filepaths["camera"], filepaths["thermal"], thermal, control);
    OwnAttributeValues(baseline, session, timer, id, activeLabel, filepaths["camera"], filepaths["thermal"]);
  }

  /** Two measurements of one session never share a record id. */
  lemma RecordIdsDistinct(session: string, stamp: string, id1: int, id2: int)
    requires id1 != id2
    ensures session + "_" + Text.IntToString(id1) + "_" + stamp != session + "_" + Text.IntToString(id2) + "_" + stamp
  {
    Text.ZFillInjective(id1, id2, 0);
    Text.PaddedHasNoSeparator(id1, 0);
    Text.PaddedHasNoSeparator(id2, 0);
    Text.SeparatedFieldsDiffer(session + "_", Text.IntToString(id1), Text.IntToString(id2), stamp, stamp);
  }

  /** The paths `generate_filepaths` gives one capture, as `generate_meta` receives them. */
  function CapturePaths(root: string, session: string, stamp: string, id: int, activeLabel: string): (m: map<string, Option<string>>)
    ensures m.Keys == {"camera", "thermal", "meta"}
  {
    map k | k in Kinds :: Some(ArtifactPath(root, session, stamp, id, k, activeLabel))
  }

  /** A record composed from present, non-empty image paths links both images by their public URLs. */
  lemma ComposedLinks(baseline: Instant, session: string, timer: Instant, id: int, activeLabel: string,
                      filepaths: map<string, Option<string>>,
                      thermal: map<string, Json>, control: map<string, Json>, camera: string, thermalImage: string)
    requires forall k :: k in ThermalKeys ==> k in thermal
    requires forall k :: k in ControlKeys ==> k in control
    requires "meta" in filepaths && filepaths["meta"].Some?
    requires "camera" in filepaths && filepaths["camera"] == Some(camera) && camera != ""
    requires "thermal" in filepaths && filepaths["thermal"] == Some(thermalImage) && thermalImage != ""
    ensures var r := Compose(baseline, session, timer, id, activeLabel, filepaths, thermal, control);
      && r.Success?
      && "camera_filepath" in r.value.attributes && "thermal_filepath" in r.value.attributes
      && r.value.attributes["camera_filepath"] == Str(PublicBase + "/" + camera)
      && r.value.attributes["thermal_filepath"] == Str(PublicBase + "/" + thermalImage)
  {
    assert Compose(baseline, session, timer, id, activeLabel, filepaths, thermal, control)
        == Success(Record(baseline, session, timer, id, activeLabel, Some(camera), Some(thermalImage), thermal, control));
    RecordOwnFields(baseline, session, timer, id, activeLabel, Some(camera), Some(thermalImage), thermal, control);
    OwnAttributeValues(baseline, session, timer, id, activeLabel, Some(camera), Some(thermalImage));
  }

  /**
   * Fed the paths of its own capture, `generate_meta` finds every path it
   * looks up, and the record's file attributes are the public URLs of the
   * camera and thermal images.
   */
  lemma CaptureComposes(root: string, session: string, baseline: Instant, timer: Instant, id: int, activeLabel: string,
                        thermal: map<string, Json>, control: map<string, Json>)
    requires forall k :: k in ThermalKeys ==> k in thermal
    requires forall k :: k in ControlKeys ==> k in control
    ensures var r := Compose(baseline, session, timer, id, activeLabel, CapturePaths(root, session, timer.text, id, activeLabel), thermal, control);
      && r.Success?
      && "camera_filepath" in r.value.attributes && "thermal_filepath" in r.value.attributes
      && r.value.attributes["camera_filepath"] == Str(PublicBase + "/" + ArtifactPath(root, session, timer.text, id, "camera", activeLabel))
      && r.value.attributes["thermal_filepath"] == Str(PublicBase + "/" + ArtifactPath(root, session, timer.text, id, "thermal", activeLabel))
  {
    var paths := CapturePaths(root, session, timer.text, id, activeLabel);
    var camera := ArtifactPath(root, session, timer.text, id, "camera", activeLabel);
    var thermalImage := ArtifactPath(root, session, timer.text, id, "thermal", activeLabel);
    assert "camera" in Kinds && "thermal" in Kinds && "meta" in Kinds;
    assert |camera| > 0 && |thermalImage| > 0;
    ComposedLinks(baseline, session, timer, id, activeLabel, paths, thermal, control, camera, thermalImage);
  }

  // ---------------------------------------------------------------------------
  // Labels
  // ---------------------------------------------------------------------------

  const OnionLabels: seq<string> := ["Discard", "Raw", "Browning", "Brown", "Overcooked"]
  const WaterLabels: seq<string> := ["Discard", "Not boiling", "Simmering", "Boiling"]

  /** One labelling scale: each label keyed by the decimal text of its index. */
  function Scale(labels: seq<string>): (m: map<string, Json>)
    requires |labels| <= 10
    ensures m.Keys == set i | 0 <= i < |labels| :: Text.IntToString(i)
    ensures forall i :: 0 <= i < |labels| ==> m[Text.IntToString(i)] == Str(labels[i])
  {
    assert forall i :: 0 <= i < |labels| ==> Text.IntToString(i) == [Text.DigitChar(i)];
    map i | 0 <= i < |labels| :: [Text.DigitChar(i)] := Str(labels[i])
  }

  /** `generate_labels`: the fixed catalogue of live labels, Onion 0-4 and Water 0-3. */
  function GenerateLabels(): (r: Json)
    ensures r.Obj? && r.fields.Keys == {"type", "attributes"} && r.fields["type"] == Str("labels")
    ensures r.fields["attributes"] == Obj(map["Onion" := Obj(Scale(OnionLabels)), "Water" := Obj(Scale(WaterLabels))])
  {
    Obj(map[
      "type" := Str("labels"),
      "attributes" := Obj(map["Onion" := Obj(Scale(OnionLabels)), "Water" := Obj(Scale(WaterLabels))])])
  }

  // ---------------------------------------------------------------------------
  // The stateful recorder
  // ---------------------------------------------------------------------------

  /**
   * `Data`: the recorder of one running session. Its one piece of state is
   * the baseline `timer` each interval is measured from; the directories
   * made on the local disk are tracked as a ghost set.
   */
  class Data {
    /** The directory data.py lives in (`PATH`). */
    const root: string
    var timer: Instant
    ghost var dirs: set<string>

    /** The first interval is measured from the moment the recorder is made. */
    constructor (root: string, now: Instant)
      ensures this.root == root && timer == now && dirs == {}
    {
      this.root := root;
      timer := now;
      dirs := {};
    }

    /**
     * `generate_filepaths`: the camera, thermal and meta paths of one
     * capture, each in its own directory, which is made if missing.
     */
    method GenerateFilepaths(session: string, stamp: string, id: int, activeLabel: string)
      returns (filepaths: map<string, string>)
      modifies this`dirs
      ensures filepaths.Keys == {"camera", "thermal", "meta"}
      ensures forall k :: k in filepaths ==> filepaths[k] == ArtifactPath(root, session, stamp, id, k, activeLabel)
      ensures dirs == old(dirs) + ArtifactDirs(root, session, activeLabel)
    {
      filepaths := map[];

      var dir := ArtifactDir(root, session, "camera", activeLabel);
      dirs := dirs + {dir};
      filepaths := filepaths["camera" := dir + "/" + FileName(session, stamp, id, "camera", activeLabel)];

      dir := ArtifactDir(root, session, "thermal", activeLabel);
      dirs := dirs + {dir};
      filepaths := filepaths["thermal" := dir + "/" + FileName(session, stamp, id, "thermal", activeLabel)];

      dir := ArtifactDir(root, session, "meta", activeLabel);
      dirs := dirs + {dir};
      filepaths := filepaths["meta" := dir + "/" + FileName(session, stamp, id, "meta", activeLabel)];

      assert ArtifactDirs(root, session, activeLabel) == {
        ArtifactDir(root, session, "camera", activeLabel),
        ArtifactDir(root, session, "thermal", activeLabel),
        ArtifactDir(root, session, "meta", activeLabel)};
    }

    /**
     * `generate_meta`: measure the interval from the stored baseline, make
     * `timer` the new baseline, then compose the record. The baseline moves
     * even when a lookup then fails.
     */
    method GenerateMeta(session: string, timer: Instant, id: int, activeLabel: string,
                        filepaths: map<string, Option<string>>,
                        thermal: map<string, Json>, control: map<string, Json>)
      returns (r: Result<MetaRecord, Error>)
      modifies this`timer
      ensures this.timer == timer
      ensures r == Compose(old(this.timer), session, timer, id, activeLabel, filepaths, thermal, control)
    {
      var baseline := this.timer;
      this.timer := timer;
      r := Compose(baseline, session, timer, id, activeLabel, filepaths, thermal, control);
    }
  }

  /**
   * Asking twice for the paths of one capture gives the same paths and
   * makes no further directory.
   */
  method FilepathsIdempotent(d: Data, session: string, stamp: string, id: int, activeLabel: string)
    returns (first: map<string, string>, second: map<string, string>)
    modifies d`dirs
    ensures first == second
    ensures ArtifactDirs(d.root, session, activeLabel) <= d.dirs
  {
    first := d.GenerateFilepaths(session, stamp, id, activeLabel);
    ghost var made := d.dirs;
    second := d.GenerateFilepaths(session, stamp, id, activeLabel);
    assert d.dirs == made;
  }

  /** A second record measures its interval from the first record's timer. */
  method SuccessiveIntervals(d: Data, session: string, t1: Instant, t2: Instant, id: int, activeLabel: string,
                             filepaths: map<string, Option<string>>,
                             thermal: map<string, Json>, control: map<string, Json>)
    returns (r1: Result<MetaRecord, Error>, r2: Result<MetaRecord, Error>)
    modifies d`timer
    ensures d.timer == t2
    ensures r2.Success? ==>
      "interval" in r2.value.attributes && r2.value.attributes["interval"] == Num(RoundTenths(t2.micros - t1.micros) as real / 10.0)
  {
    r1 := d.GenerateMeta(session, t1, id, activeLabel, filepaths, thermal, control);
    r2 := d.GenerateMeta(session, t2, id + 1, activeLabel, filepaths, thermal, control);
    if r2.Success? {
      ComposedInterval(t1, session, t2, id + 1, activeLabel, filepaths, thermal, control);
    }
  }

  /**
   * One capture end to end: make its paths, then its record from them. The
   * record is written, and links the capture's own camera image.
   */
  method CaptureRecord(d: Data, session: string, timer: Instant, id: int, activeLabel: string,
                       thermal: map<string, Json>, control: map<string, Json>)
    returns (r: Result<MetaRecord, Error>)
    requires forall k :: k in ThermalKeys ==> k in thermal
    requires forall k :: k in ControlKeys ==> k in control
    modifies d`dirs, d`timer
    ensures d.timer == timer
    ensures r.Success? && "camera_filepath" in r.value.attributes
    ensures r.value.attributes["camera_filepath"] == Str(PublicBase + "/" + ArtifactPath(d.root, session, timer.text, id, "camera", activeLabel))
  {
    var paths := d.GenerateFilepaths(session, timer.text, id, activeLabel);
    var lifted := map k | k in paths :: Some(paths[k]);
    assert lifted == CapturePaths(d.root, session, timer.text, id, activeLabel);
    ghost var baseline := d.timer;
    r := d.GenerateMeta(session, timer, id, activeLabel, lifted, thermal, control);
    CaptureComposes(d.root, session, baseline, timer, id, activeLabel, thermal, control);
  }
}
