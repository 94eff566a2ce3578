/** The record helpers of the package: the hour bucket of a stream time,
    the timestamp that starts an hour bucket, the identifiers of a new
    stream item, filing labels and ratings under their annotator, and the
    name of a token's entity type. The Thrift structures appear with only
    the fields these helpers touch. */
module RecordHelpers {
  import opened Common
  import opened Checksum

  /** `StreamTime`: an ISO 8601 'Zulu' timestamp and its seconds since the epoch. */
  datatype StreamTime = StreamTime(zuluTimestamp: string, epochTicks: int)

  /** What `get_date_hour` may be handed: a StreamItem (whose `stream_time`
      may be unset), a StreamTime, or anything else. */
  datatype Stamped = StampedItem(streamTime: Option<StreamTime>) | StampedTime(time: StreamTime) | NotStamped

  /** The exceptions these helpers raise. */
  datatype HelperError =
    | AssertionError
    | FaultyAnnotation
    | UnknownAnnotation
    | NameError
    | KeyError(key: int)
    | UnboundLocal
    | TimeFormat

  // ---------------------------------------------------------------------
  // get_date_hour
  // ---------------------------------------------------------------------

  /** `h` is the hour bucket of timestamp `z`: the part of `z` before its
      first ':', with every 'T' read as '-'. */
  predicate IsDateHourOf(h: string, z: string)
  {
    |h| <= |z| && (|h| == |z| || z[|h|] == ':') &&
    (forall i :: 0 <= i < |h| ==> z[i] != ':' && h[i] == (if z[i] == 'T' then '-' else z[i]))
  }

  /** A timestamp has only one hour bucket. */
  lemma DateHourUnique(h1: string, h2: string, z: string)
    requires IsDateHourOf(h1, z) && IsDateHourOf(h2, z)
    ensures h1 == h2
  {
    if |h1| < |h2| {
      assert false;
    } else if |h2| < |h1| {
      assert false;
    }
  }

  /** The first component of `split(sep)` is everything before the first separator. */
  lemma {:induction false} SplitFirst(s: string, sep: char)
    ensures var p := Split(s, sep)[0];
            |p| <= |s| && s[..|p|] == p && (|p| == |s| || s[|p|] == sep)
  {
    if s != [] && s[0] != sep {
      SplitFirst(s[1..], sep);
      var rest := Split(s[1..], sep);
      assert Split(s, sep)[0] == [s[0]] + rest[0];
    }
  }

  /** `zulu_timestamp.split(':')[0].replace('T', '-')`. */
  function DateHour(z: string): (h: string)
    ensures IsDateHourOf(h, z)
  {
    SplitFirst(z, ':');
    var p := Split(z, ':')[0];
    assert ':' !in p;
    assert forall i :: 0 <= i < |p| ==> z[i] == p[i];
    ReplaceChar(p, 'T', '-')
  }

  /** `get_date_hour(stream_thing)`. */
  function GetDateHour(x: Stamped): (r: Result<string, HelperError>)
    ensures r.Err? <==> !(x.StampedTime? || (x.StampedItem? && x.streamTime.Some?))
    ensures r.Err? ==> r.error == AssertionError
    ensures x.StampedTime? ==> r.Ok? && IsDateHourOf(r.value, x.time.zuluTimestamp)
    ensures x.StampedItem? && x.streamTime.Some? ==> r.Ok? && IsDateHourOf(r.value, x.streamTime.value.zuluTimestamp)
  {
    var t := if x.StampedItem? then x.streamTime else if x.StampedTime? then Some(x.time) else None;
    if t.None? then Err(AssertionError) else Ok(DateHour(t.value.zuluTimestamp))
  }

  /** The hour bucket of a timestamp whose first ':' is at `k` is the text
      before it with 'T' read as '-'. */
  lemma DateHourAt(z: string, k: nat)
    requires k < |z| && z[k] == ':' && ':' !in z[..k]
    ensures DateHour(z) == ReplaceChar(z[..k], 'T', '-')
  {
    var h := ReplaceChar(z[..k], 'T', '-');
    assert forall i :: 0 <= i < k ==> z[..k][i] == z[i];
    DateHourUnique(DateHour(z), h, z);
  }

  /** The documented example: '2000-01-01T12:34:00.000123Z' is in hour '2000-01-01-12'. */
  lemma DateHourExample()
    ensures DateHour("2000-01-01T12:34:00.000123Z") == "2000-01-01-12"
  {
    var z := "2000-01-01T12:34:00.000123Z";
    var h := "2000-01-01-12";
    assert forall i :: 0 <= i < |h| ==> z[i] != ':' && h[i] == (if z[i] == 'T' then '-' else z[i]);
    assert z[|h|] == ':';
    DateHourUnique(DateHour(z), h, z);
  }

  // ---------------------------------------------------------------------
  // get_epoch_ticks_for_date_hour
  // ---------------------------------------------------------------------

  const HourSuffix := ":00:00.000000Z"

  /** The timestamp that `get_epoch_ticks_for_date_hour` builds from an
      hour bucket: its first three '-' parts joined by '-', 'T', the
      fourth part, then ':00:00.000000Z'. Any other number of parts fails
      the assertion. */
  function ZuluForDateHour(dh: string): (r: Result<string, HelperError>)
    ensures r.Ok? <==> |Split(dh, '-')| == 4
    ensures r.Err? ==> r.error == AssertionError
    ensures r.Ok? ==> EndsWith(r.value, HourSuffix)
  {
    var parts := Split(dh, '-');
    if |parts| != 4 then Err(AssertionError)
    else Ok(Join(parts[..3], '-') + "T" + parts[3] + HourSuffix)
  }

  /** The built timestamp is the hour bucket with its last '-' turned into
      'T', followed by ':00:00.000000Z'. */
  lemma ZuluReplacesLastDash(dh: string) returns (k: nat)
    requires ZuluForDateHour(dh).Ok?
    ensures k < |dh| && dh[k] == '-' && '-' !in dh[k + 1..]
    ensures ZuluForDateHour(dh).value == dh[..k] + "T" + dh[k + 1..] + HourSuffix
  {
    var parts := Split(dh, '-');
    var a, b, c, d := parts[0], parts[1], parts[2], parts[3];
    assert parts == [a, b, c, d];
    assert parts[..3] == [a, b, c];
    JoinThree(a, b, c);
    JoinFour(a, b, c, d);
    var front := a + "-" + b + "-" + c;
    assert dh == front + "-" + d;
    k := |front|;
    assert dh[..k] == front && dh[k + 1..] == d;
  }

  lemma JoinThree(a: string, b: string, c: string)
    ensures Join([a, b, c], '-') == a + "-" + b + "-" + c
  {
    assert [a, b, c][1..] == [b, c] && [b, c][1..] == [c];
    assert Join([b, c], '-') == b + "-" + c;
  }

  lemma JoinFour(a: string, b: string, c: string, d: string)
    ensures Join([a, b, c, d], '-') == a + "-" + b + "-" + c + "-" + d
  {
    assert [a, b, c, d][1..] == [b, c, d];
    JoinThree(b, c, d);
  }

  /** `get_date_hour` of the built timestamp gives back the hour bucket,
      as long as the bucket holds no ':' and no 'T' of its own. */
  lemma DateHourOfZulu(dh: string)
    requires ZuluForDateHour(dh).Ok?
    requires ':' !in dh && 'T' !in dh
    ensures DateHour(ZuluForDateHour(dh).value) == dh
  {
    var k := ZuluReplacesLastDash(dh);
    var z := ZuluForDateHour(dh).value;
    assert |z| == |dh| + |HourSuffix|;
    assert forall i :: 0 <= i < |dh| ==> z[i] == (if i == k then 'T' else dh[i]);
    assert z[|dh|] == ':';
    assert IsDateHourOf(dh, z);
    DateHourUnique(DateHour(z), dh, z);
  }

  /** A part of an hour bucket: no '-', ':' or 'T'. */
  predicate PlainPart(s: string)
  {
    '-' !in s && ':' !in s && 'T' !in s
  }

  /** A bucket made of four plain parts is accepted and comes back from its
      own timestamp. */
  lemma ZuluForFourParts(y: string, m: string, d: string, hh: string)
    requires PlainPart(y) && PlainPart(m) && PlainPart(d) && PlainPart(hh)
    ensures var dh := y + "-" + m + "-" + d + "-" + hh;
            ZuluForDateHour(dh).Ok? && DateHour(ZuluForDateHour(dh).value) == dh
  {
    var dh := y + "-" + m + "-" + d + "-" + hh;
    SplitJoin([y, m, d, hh], '-');
    JoinFour(y, m, d, hh);
    assert ':' !in dh && 'T' !in dh;
    DateHourOfZulu(dh);
  }

  /** `get_epoch_ticks_for_date_hour(date_hour)`; `timegm` stands for
      `make_stream_time(zt).epoch_ticks`, None where `strptime` rejects the
      timestamp. */
  function EpochTicksForDateHour(dh: string, timegm: string -> Option<int>): (r: Result<int, HelperError>)
    ensures |Split(dh, '-')| != 4 ==> r == Err(AssertionError)
    ensures |Split(dh, '-')| == 4 ==>
              var z := ZuluForDateHour(dh).value;
              (r.Ok? <==> timegm(z).Some?) && (r.Ok? ==> r.value == timegm(z).value) && (r.Err? ==> r.error == TimeFormat)
  {
    match ZuluForDateHour(dh)
    case Err(e) => Err(e)
    case Ok(z) => if timegm(z).None? then Err(TimeFormat) else Ok(timegm(z).value)
  }

  // ---------------------------------------------------------------------
  // make_stream_item
  // ---------------------------------------------------------------------

  datatype Version = V0_1_0 | V0_2_0 | V0_3_0

  datatype Language = Language(code: string, name: string)

  /** The fields of a StreamItem that `make_stream_item` sets. */
  datatype StreamItem = StreamItem(
    version: Version,
    streamTime: StreamTime,
    absUrl: seq<Byte>,
    docId: string,
    streamId: string,
    bodyLanguage: Language)

  /** `make_stream_item(zulu_timestamp, abs_url, version)` once
      `make_stream_time` has produced `st`. A version other than 0.2.0 or
      0.3.0 leaves `si` unbound. */
  function MakeStreamItem(st: StreamTime, absUrl: seq<Byte>, version: Version, md5: Md5): (r: Result<StreamItem, HelperError>)
    ensures r.Err? <==> version == V0_1_0
    ensures r.Err? ==> r.error == UnboundLocal
    ensures r.Ok? ==> r.value.version == version && r.value.streamTime == st && r.value.absUrl == absUrl
    ensures r.Ok? ==> r.value.docId == md5(absUrl) && r.value.bodyLanguage == Language("", "")
    ensures r.Ok? ==> StartsWith(r.value.streamId, IntToString(st.epochTicks) + "-")
    ensures r.Ok? ==> EndsWith(r.value.streamId, r.value.docId)
  {
    if version == V0_1_0 then Err(UnboundLocal)
    else
      var docId := md5(absUrl);
      var streamId := IntToString(st.epochTicks) + "-" + docId;
      assert streamId[..|IntToString(st.epochTicks) + "-"|] == IntToString(st.epochTicks) + "-";
      assert streamId[|streamId| - |docId|..] == docId;
      Ok(StreamItem(version, st, absUrl, docId, streamId, Language("", "")))
  }

  lemma HexHasNoDash(s: string)
    requires IsHexDigest(s)
    ensures '-' !in s
  {
  }

  /** A stream id gives back both halves: the doc id is its last '-' part,
      and the text before that '-' reads back as the epoch ticks. */
  lemma StreamIdParts(st: StreamTime, absUrl: seq<Byte>, version: Version, md5: Md5)
    requires Md5Law(md5)
    requires version != V0_1_0
    ensures var si := MakeStreamItem(st, absUrl, version, md5).value;
            var parts := Split(si.streamId, '-');
            parts[|parts| - 1] == si.docId &&
            |si.streamId| > |si.docId| &&
            ParseInt(si.streamId[..|si.streamId| - |si.docId| - 1]) == Some(st.epochTicks)
  {
    var si := MakeStreamItem(st, absUrl, version, md5).value;
    var t := IntToString(st.epochTicks);
    HexHasNoDash(si.docId);
    SplitLast(t, '-', si.docId);
    assert si.streamId == t + ['-'] + si.docId;
    assert si.streamId[..|t|] == t;
    ParseIntOfString(st.epochTicks);
  }

  // ---------------------------------------------------------------------
  // add_annotation
  // ---------------------------------------------------------------------

  /** The Thrift type of the object being annotated. */
  datatype ItemKind = StreamItemKind | ContentItemKind | SentenceKind | TokenKind | OtherKind

  datatype AnnotationKind = LabelKind | RatingKind | OtherAnnotation

  /** An `Annotator` with its possibly unset `annotator_id`. */
  datatype Annotator = Annotator(annotatorId: Option<string>)

  /** A Label, a Rating or something else; `annotator` None is an object on
      which `anno.annotator.annotator_id` raises. */
  datatype Annotation = Annotation(kind: AnnotationKind, annotator: Option<Annotator>, payload: seq<Byte>)

  /** Labels and ratings are filed under the annotator id, which may itself be None. */
  type Key = Option<string>

  type Filed = map<Key, seq<Annotation>>

  predicate TakesLabels(k: ItemKind)
  {
    k == ContentItemKind || k == SentenceKind || k == TokenKind
  }

  function KeyOf(a: Annotation): Key
    requires a.annotator.Some?
  {
    a.annotator.value.annotatorId
  }

  /** The list under `k`, or `[]` if there is none. */
  function Get(m: Filed, k: Key): seq<Annotation>
  {
    if k in m then m[k] else []
  }

  /** `m[k].append(a)`, creating `m[k] = []` first if absent. */
  function Append(m: Filed, k: Key, a: Annotation): (r: Filed)
    ensures r.Keys == m.Keys + {k}
    ensures r[k] == Get(m, k) + [a]
    ensures forall j :: j in m && j != k ==> r[j] == m[j]
  {
    m[k := Get(m, k) + [a]]
  }

  /** Creating the missing list and then appending to it is `Append`. */
  lemma AppendInPlace(m: Filed, m1: Filed, k: Key, a: Annotation)
    requires m1 == if k in m then m else m[k := []]
    ensures k in m1 && m1[k := m1[k] + [a]] == Append(m, k, a)
  {
  }

  /** The state after some annotations, and the exception that stopped the loop, if any. */
  datatype Placed = Placed(labels: Filed, ratings: Filed, error: Option<HelperError>)

  /** The exception one annotation raises on an item of kind `item`, in the
      order the checks are made. */
  function Refusal(item: ItemKind, a: Annotation): (r: Option<HelperError>)
    ensures a.annotator.None? ==> r == Some(FaultyAnnotation)
    ensures r.None? <==> a.annotator.Some? && ((a.kind == LabelKind && TakesLabels(item)) || (a.kind == RatingKind && item == StreamItemKind))
  {
    if a.annotator.None? then Some(FaultyAnnotation)
    else if a.kind == LabelKind then (if TakesLabels(item) then None else Some(AssertionError))
    else if a.kind == RatingKind then (if item == StreamItemKind then None else Some(AssertionError))
    else Some(UnknownAnnotation)
  }

  /** One pass of the loop body. */
  function Step(item: ItemKind, labels: Filed, ratings: Filed, a: Annotation): (r: Placed)
    ensures r.error == Refusal(item, a)
    ensures r.error.Some? ==> r.labels == labels && r.ratings == ratings
    ensures r.error.None? && a.kind == LabelKind ==> r.labels == Append(labels, KeyOf(a), a) && r.ratings == ratings
    ensures r.error.None? && a.kind == RatingKind ==> r.ratings == Append(ratings, KeyOf(a), a) && r.labels == labels
  {
    match Refusal(item, a)
    case Some(e) => Placed(labels, ratings, Some(e))
    case None =>
      if a.kind == LabelKind then Placed(Append(labels, KeyOf(a), a), ratings, None)
      else Placed(labels, Append(ratings, KeyOf(a), a), None)
  }

  /** The whole loop: annotations are filed in order until one raises. */
  function Place(item: ItemKind, labels: Filed, ratings: Filed, annos: seq<Annotation>): Placed
    decreases |annos|
  {
    if annos == [] then Placed(labels, ratings, None)
    else
      var p := Step(item, labels, ratings, annos[0]);
      if p.error.Some? then p else Place(item, p.labels, p.ratings, annos[1..])
  }

  /** The annotations of `annos` of kind `kind` filed under `k`, in order. */
  function Under(annos: seq<Annotation>, kind: AnnotationKind, k: Key): seq<Annotation>
  {
    if annos == [] then []
    else (if annos[0].kind == kind && annos[0].annotator.Some? && KeyOf(annos[0]) == k then [annos[0]] else [])
         + Under(annos[1..], kind, k)
  }

  function KeysOf(annos: seq<Annotation>, kind: AnnotationKind): set<Key>
  {
    set i | 0 <= i < |annos| && annos[i].kind == kind && annos[i].annotator.Some? :: KeyOf(annos[i])
  }

  /** `after` is `before` with each annotation of `kind` in `annos`
      appended, in order, to the list of its annotator. */
  predicate FiledAs(after: Filed, before: Filed, annos: seq<Annotation>, kind: AnnotationKind)
  {
    after.Keys == before.Keys + KeysOf(annos, kind) &&
    forall k :: k in after ==> after[k] == Get(before, k) + Under(annos, kind, k)
  }

  predicate Accepted(item: ItemKind, annos: seq<Annotation>)
  {
    forall i :: 0 <= i < |annos| ==> Refusal(item, annos[i]).None?
  }

  lemma KeysOfCons(a: Annotation, rest: seq<Annotation>, kind: AnnotationKind)
    ensures KeysOf([a] + rest, kind) == (if a.kind == kind && a.annotator.Some? then {KeyOf(a)} else {}) + KeysOf(rest, kind)
  {
    var s := [a] + rest;
    forall k | k in KeysOf(s, kind)
      ensures k in (if a.kind == kind && a.annotator.Some? then {KeyOf(a)} else {}) + KeysOf(rest, kind)
    {
      var i :| 0 <= i < |s| && s[i].kind == kind && s[i].annotator.Some? && KeyOf(s[i]) == k;
      if i > 0 {
        assert s[i] == rest[i - 1];
      }
    }
    forall k | k in KeysOf(rest, kind)
      ensures k in KeysOf(s, kind)
    {
      var i :| 0 <= i < |rest| && rest[i].kind == kind && rest[i].annotator.Some? && KeyOf(rest[i]) == k;
      assert s[i + 1] == rest[i];
    }
    if a.kind == kind && a.annotator.Some? {
      assert s[0] == a;
    }
  }

  /** Filing one annotation and then the rest is filing them all. */
  lemma FiledAsCons(mid: Filed, before: Filed, after: Filed, a: Annotation, rest: seq<Annotation>, kind: AnnotationKind)
    requires a.annotator.Some?
    requires mid == (if a.kind == kind then Append(before, KeyOf(a), a) else before)
    requires FiledAs(after, mid, rest, kind)
    ensures FiledAs(after, before, [a] + rest, kind)
  {
    KeysOfCons(a, rest, kind);
    forall k | k in after
      ensures after[k] == Get(before, k) + Under([a] + rest, kind, k)
    {
      FiledAsConsAt(mid, before, a, rest, kind, k);
    }
  }

  lemma FiledAsConsAt(mid: Filed, before: Filed, a: Annotation, rest: seq<Annotation>, kind: AnnotationKind, k: Key)
    requires a.annotator.Some?
    requires mid == (if a.kind == kind then Append(before, KeyOf(a), a) else before)
    ensures Get(mid, k) + Under(rest, kind, k) == Get(before, k) + Under([a] + rest, kind, k)
  {
    assert ([a] + rest)[1..] == rest && ([a] + rest)[0] == a;
    if a.kind == kind && KeyOf(a) == k {
      assert Get(mid, k) == Get(before, k) + [a];
      assert Under([a] + rest, kind, k) == [a] + Under(rest, kind, k);
    } else {
      assert Get(mid, k) == Get(before, k);
      assert Under([a] + rest, kind, k) == Under(rest, kind, k);
    }
  }

  /** When every annotation is accepted, nothing is raised, each Label ends
      up at the end of its annotator's list of labels and each Rating at
      the end of its annotator's list of ratings, in order, and no other
      list changes. */
  lemma {:induction false} PlaceAccepted(item: ItemKind, labels: Filed, ratings: Filed, annos: seq<Annotation>)
    requires Accepted(item, annos)
    decreases |annos|
    ensures var p := Place(item, labels, ratings, annos);
            p.error.None? && FiledAs(p.labels, labels, annos, LabelKind) && FiledAs(p.ratings, ratings, annos, RatingKind)
  {
    if annos == [] {
      assert KeysOf(annos, LabelKind) == {} && KeysOf(annos, RatingKind) == {};
    } else {
      var a := annos[0];
      assert Refusal(item, a).None?;
      var s := Step(item, labels, ratings, a);
      assert Accepted(item, annos[1..]) by {
        forall i | 0 <= i < |annos[1..]|
          ensures Refusal(item, annos[1..][i]).None?
        {
          assert annos[1..][i] == annos[i + 1];
        }
      }
      PlaceAccepted(item, s.labels, s.ratings, annos[1..]);
      var p := Place(item, labels, ratings, annos);
      assert [a] + annos[1..] == annos;
      FiledAsCons(s.labels, labels, p.labels, a, annos[1..], LabelKind);
      FiledAsCons(s.ratings, ratings, p.ratings, a, annos[1..], RatingKind);
    }
  }

  /** The first annotation that raises stops the loop: what came before it
      stays filed and nothing after it is. */
  lemma {:induction false} PlaceStops(item: ItemKind, labels: Filed, ratings: Filed, annos: seq<Annotation>, j: nat)
    requires j < |annos| && Accepted(item, annos[..j]) && Refusal(item, annos[j]).Some?
    decreases j
    ensures var p := Place(item, labels, ratings, annos);
            var q := Place(item, labels, ratings, annos[..j]);
            p == Placed(q.labels, q.ratings, Refusal(item, annos[j]))
  {
    if j > 0 {
      assert Refusal(item, annos[..j][0]).None?;
      var s := Step(item, labels, ratings, annos[0]);
      assert annos[1..][..j - 1] == annos[..j][1..];
      var t := annos[1..][..j - 1];
      assert Accepted(item, t) by {
        forall i | 0 <= i < j - 1
          ensures Refusal(item, t[i]).None?
        {
          assert t[i] == annos[..j][i + 1];
        }
      }
      PlaceStops(item, s.labels, s.ratings, annos[1..], j - 1);
    }
  }

  /** An object that carries `labels` (ContentItem, Sentence, Token) or
      `ratings` (StreamItem), both maps of lists. */
  class Annotated {
    const kind: ItemKind
    var labels: Filed
    var ratings: Filed

    constructor (kind: ItemKind)
      ensures this.kind == kind && labels == map[] && ratings == map[]
    {
      this.kind := kind;
      labels := map[];
      ratings := map[];
    }
  }

  /** `add_annotation(data_item, *annotations)`: the lists are appended to in
      place, one annotation at a time, until one raises. */
  method AddAnnotation(item: Annotated, annos: seq<Annotation>) returns (error: Option<HelperError>)
    modifies item
    ensures var p := Place(item.kind, old(item.labels), old(item.ratings), annos);
            item.labels == p.labels && item.ratings == p.ratings && error == p.error
  {
    var i := 0;
    while i < |annos|
      invariant 0 <= i <= |annos|
      invariant Place(item.kind, old(item.labels), old(item.ratings), annos) ==
                Place(item.kind, item.labels, item.ratings, annos[i..])
    {
      var a := annos[i];
      assert annos[i..][0] == a && annos[i..][1..] == annos[i + 1..];
      if a.annotator.None? {
        return Some(FaultyAnnotation);
      }
      var id := a.annotator.value.annotatorId;
      if a.kind == LabelKind {
        if !TakesLabels(item.kind) {
          return Some(AssertionError);
        }
        ghost var before := item.labels;
        if id !in item.labels {
          item.labels := item.labels[id := []];
        }
        AppendInPlace(before, item.labels, id, a);
        item.labels := item.labels[id := item.labels[id] + [a]];
      } else if a.kind == RatingKind {
        if item.kind != StreamItemKind {
          return Some(AssertionError);
        }
        ghost var before := item.ratings;
        if id !in item.ratings {
          item.ratings := item.ratings[id := []];
        }
        AppendInPlace(before, item.ratings, id, a);
        item.ratings := item.ratings[id := item.ratings[id] + [a]];
      } else {
        return Some(UnknownAnnotation);
      }
      i := i + 1;
    }
    return None;
  }

  // ---------------------------------------------------------------------
  // get_entity_type
  // ---------------------------------------------------------------------

  /** The `EntityType` enumeration: its `_VALUES_TO_NAMES` table and the
      value of `CUSTOM_TYPE`. */
  datatype EntityTypes = EntityTypes(names: map<int, string>, custom: int)

  datatype Token = Token(entityType: Option<int>, customEntityType: Option<string>)

  /** `get_entity_type(tok)` as written: a CUSTOM_TYPE token without a
      custom name reaches `logger.critical`, and `logger` is not defined in
      the module, so the call raises NameError. */
  function EntityTypeAsWritten(tok: Token, types: EntityTypes): (r: Result<Option<string>, HelperError>)
    ensures tok.entityType == Some(types.custom) && tok.customEntityType.None? ==> r == Err(NameError)
  {
    if tok.entityType.None? then Ok(None)
    else if tok.entityType.value == types.custom then
      if tok.customEntityType.None? then Err(NameError) else Ok(tok.customEntityType)
    else if tok.entityType.value in types.names then Ok(Some(types.names[tok.entityType.value]))
    else Err(KeyError(tok.entityType.value))
  }

  /** `get_entity_type(tok)` as its comment describes it: the name of the
      token's entity type, the custom name for CUSTOM_TYPE (None when that
      is unset, after logging), None when no type is set. */
  function GetEntityType(tok: Token, types: EntityTypes): (r: Result<Option<string>, HelperError>)
    ensures tok.entityType.None? ==> r == Ok(None)
    ensures tok.entityType == Some(types.custom) ==> r == Ok(tok.customEntityType)
    ensures r.Err? <==> tok.entityType.Some? && tok.entityType.value != types.custom && tok.entityType.value !in types.names
    ensures r.Err? ==> r.error == KeyError(tok.entityType.value)
    ensures tok.entityType.Some? && tok.entityType.value != types.custom && tok.entityType.value in types.names ==>
              r == Ok(Some(types.names[tok.entityType.value]))
  {
    if tok.entityType.None? then Ok(None)
    else if tok.entityType.value == types.custom then Ok(tok.customEntityType)
    else if tok.entityType.value in types.names then Ok(Some(types.names[tok.entityType.value]))
    else Err(KeyError(tok.entityType.value))
  }

  /** With `_VALUES_TO_NAMES` one-to-one, the name returned for a token
      without a custom type identifies its entity type: two such tokens get
      the same answer exactly when they carry the same type. */
  lemma EntityTypeNameIdentifies(t1: Token, t2: Token, types: EntityTypes)
    requires forall a, b :: a in types.names && b in types.names && types.names[a] == types.names[b] ==> a == b
    requires t1.entityType != Some(types.custom) && t2.entityType != Some(types.custom)
    requires GetEntityType(t1, types).Ok? && GetEntityType(t2, types).Ok?
    ensures GetEntityType(t1, types) == GetEntityType(t2, types) <==> t1.entityType == t2.entityType
  {
    if GetEntityType(t1, types) == GetEntityType(t2, types) && t1.entityType.Some? {
      assert t2.entityType.Some?;
      var a, b := t1.entityType.value, t2.entityType.value;
      assert types.names[a] == types.names[b];
    }
  }

  /** The two differ on exactly the CUSTOM_TYPE tokens without a custom name. */
  lemma EntityTypeDiffers(tok: Token, types: EntityTypes)
    ensures EntityTypeAsWritten(tok, types) != GetEntityType(tok, types) <==>
            tok.entityType == Some(types.custom) && tok.customEntityType.None?
  {
  }

  /** The repository's own cases: a PER token gives 'PER' and a CUSTOM_TYPE
      token named 'foo' gives 'foo'. */
  lemma EntityTypeExamples(types: EntityTypes, per: int)
    requires per != types.custom && per in types.names && types.names[per] == "PER"
    ensures GetEntityType(Token(Some(per), None), types) == Ok(Some("PER"))
    ensures GetEntityType(Token(Some(types.custom), Some("foo")), types) == Ok(Some("foo"))
  {
  }
}
