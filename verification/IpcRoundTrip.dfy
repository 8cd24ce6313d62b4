/**
 From a request's value to canonical text, its UTF-8 bytes, a frame, any cut of the frame into chunks, and back.

 The checks of a request beyond its JSON are a parameter.
 */
module IpcRoundTrip {
  import opened Common
  import JsonGrammar
  import opened JsonScan
  import opened JsonAccepts
  import opened JsonCanonical
  import opened IpcFrames
  import opened Utf8

  /** How a payload is read: its text must be JSON, and have no repeated names, and its value pass the checks. */
  ghost function Reading(accepts: JsonGrammar.Value -> bool): Bytes -> Option<JsonGrammar.Value> {
    (payload: Bytes) =>
      var seen := ReadText(FromUtf8(payload));
      if IsJson(FromUtf8(payload)) && seen.At? && accepts(seen.value) then Some(seen.value) else None
  }

  function Payload(v: JsonGrammar.Value): Bytes { ToUtf8(CanonicalJson(v)) }

  /**
   A request that is acceptable with its keys sorted arrives as itself, up to the order of its keys, however its
   frame is cut; and nothing arrives as long as part of the frame is missing.
   */
  lemma RequestArrives(
    accepts: JsonGrammar.Value -> bool, v: JsonGrammar.Value, chunks: seq<Bytes>, missing: Bytes)
    requires Proper(v) && accepts(Normalize(v)) && LengthError(|Payload(v)|) == None
    requires Concat(chunks) + missing == Encode(Payload(v))
    ensures Fed(Reading(accepts), [], chunks) ==
      if missing == [] then Got(Normalize(v)) else Failed(TruncatedFrame)
    ensures Alike(Normalize(v), v)
  {
    hide ReadText, CanonicalJson, Normalize, Alike, Proper, Fed, LengthError, ToUtf8, FromUtf8, IsJson;
    CanonicalReadsBack(v);
    CanonicalIsWritten(v);
    CanonicalIsJson(v);
    assert Reading(accepts)(Payload(v)) == Some(Normalize(v));
    assert [] + Concat(chunks) + missing == Encode(Payload(v));
    AnyCut(Reading(accepts), Payload(v), [], chunks, missing);
    NormalizeIsAlike(v);
  }

  lemma CanonicalIsJson(v: JsonGrammar.Value)
    requires Proper(v)
    ensures IsJson(CanonicalJson(v))
  {
    hide JsonGrammar.TreeOk, JsonGrammar.Render, Proper, TreeOf, Normalize;
    NormalProper(v);
    TreeMeans(Normalize(v));
    var p := Bare(TreeOf(Normalize(v)));
    assert JsonGrammar.RenderPadded(p) == CanonicalJson(v);
  }

  /** Two requests whose frames are the same bytes are the same up to the order of their keys. */
  lemma EqualFramesMeanAlike(v: JsonGrammar.Value, w: JsonGrammar.Value)
    requires Proper(v) && Proper(w)
    requires LengthError(|Payload(v)|) == None == LengthError(|Payload(w)|)
    ensures Encode(Payload(v)) == Encode(Payload(w)) <==> Alike(v, w)
  {
    hide CanonicalJson, Alike, Proper, ToUtf8, FromUtf8;
    var a, b := Payload(v), Payload(w);
    assert Encode(a)[4..] == a && Encode(b)[4..] == b;
    CanonicalIsWritten(v);
    CanonicalIsWritten(w);
    CanonicalIsInjective(v, w);
  }

  /** Sorting the keys changes nothing but their order. */
  lemma NormalizeIsAlike(v: JsonGrammar.Value)
    requires Proper(v)
    ensures Alike(Normalize(v), v)
  {
    NormalProper(v);
    NormalAlike(Normalize(v), v);
    NormalizeTwice(v);
  }
}
