/**
 * Caption tracks as YouTube's player response lists them, and the track the
 * extension prefers: Traditional Chinese, then Simplified Chinese, then an
 * automatically generated track, then the first one.  The content script
 * (browser-extension/content.js) and the page script
 * (browser-extension/injected.js) write the same `find(...) || ...` chain;
 * both are modelled by `Preferred`.
 */
module CaptionTracks {
  import opened Wrappers

  /**
   * One entry of `captionTracks`.  A missing `languageCode` or `kind` is
   * modelled as "", which equals none of the codes compared against.
   */
  datatype CaptionTrack = CaptionTrack(languageCode: string, kind: string, baseUrl: Option<string>)

  /** The three `find` predicates, in the order they are tried. */
  datatype Preference = TraditionalChinese | SimplifiedChinese | AutoGenerated

  predicate Satisfies(t: CaptionTrack, p: Preference) {
    match p
    case TraditionalChinese => t.languageCode == "zh-Hant" || t.languageCode == "zh-TW"
    case SimplifiedChinese => t.languageCode == "zh-Hans" || t.languageCode == "zh-CN" || t.languageCode == "zh"
    case AutoGenerated => t.kind == "asr"
  }

  /** How much the extension wants a track: 0 is best, 3 means only "the first one" can pick it. */
  function Tier(t: CaptionTrack): nat {
    if Satisfies(t, TraditionalChinese) then 0
    else if Satisfies(t, SimplifiedChinese) then 1
    else if Satisfies(t, AutoGenerated) then 2
    else 3
  }

  /** `tracks.findIndex(...)` for one preference, with `None` for -1. */
  function Find(tracks: seq<CaptionTrack>, p: Preference): (r: Option<nat>)
    ensures r.Some? ==> r.value < |tracks| && Satisfies(tracks[r.value], p)
    ensures r.Some? ==> forall j | 0 <= j < r.value :: !Satisfies(tracks[j], p)
    ensures r.None? ==> forall j | 0 <= j < |tracks| :: !Satisfies(tracks[j], p)
  {
    if tracks == [] then None
    else if Satisfies(tracks[0], p) then Some(0)
    else match Find(tracks[1..], p)
      case Some(k) => Some(k + 1)
      case None => None
  }

  /**
   * The index of the preferred track: the first track of the best tier
   * present.  `None` only for an empty list, where `tracks[0]` is
   * `undefined`.
   */
  function Preferred(tracks: seq<CaptionTrack>): (r: Option<nat>)
    ensures r.None? <==> tracks == []
    ensures r.Some? ==> r.value < |tracks|
    ensures r.Some? ==> forall j | 0 <= j < |tracks| :: Tier(tracks[r.value]) <= Tier(tracks[j])
    ensures r.Some? ==> forall j | 0 <= j < r.value :: Tier(tracks[j]) > Tier(tracks[r.value])
  {
    match Find(tracks, TraditionalChinese)
    case Some(i) => Some(i)
    case None =>
      match Find(tracks, SimplifiedChinese)
      case Some(i) => Some(i)
      case None =>
        match Find(tracks, AutoGenerated)
        case Some(i) => Some(i)
        case None => if tracks == [] then None else Some(0)
  }

  /** The preferred track itself. */
  function PreferredTrack(tracks: seq<CaptionTrack>): (r: Option<CaptionTrack>)
    ensures r.None? <==> tracks == []
    ensures r.Some? ==> r.value in tracks
    ensures r.Some? ==> forall t | t in tracks :: Tier(r.value) <= Tier(t)
  {
    match Preferred(tracks)
    case Some(i) => Some(tracks[i])
    case None => None
  }

  /** A Traditional Chinese track beats every other, wherever it appears. */
  lemma TraditionalWins(tracks: seq<CaptionTrack>, k: nat)
    requires k < |tracks| && Satisfies(tracks[k], TraditionalChinese)
    ensures Preferred(tracks).Some? && Satisfies(tracks[Preferred(tracks).value], TraditionalChinese)
    ensures Preferred(tracks).value <= k
  {
  }

  /** With no Chinese track, an automatically generated one is chosen when there is one. */
  lemma AutoGeneratedBeatsOthers(tracks: seq<CaptionTrack>, k: nat)
    requires k < |tracks| && Satisfies(tracks[k], AutoGenerated)
    requires forall j | 0 <= j < |tracks| :: !Satisfies(tracks[j], TraditionalChinese) && !Satisfies(tracks[j], SimplifiedChinese)
    ensures Preferred(tracks).Some? && Satisfies(tracks[Preferred(tracks).value], AutoGenerated)
  {
    assert Tier(tracks[k]) == 2;
  }

  /** With no track matching any preference, the first track is chosen. */
  lemma FirstAsLastResort(tracks: seq<CaptionTrack>)
    requires tracks != []
    requires forall j | 0 <= j < |tracks| :: Tier(tracks[j]) == 3
    ensures Preferred(tracks) == Some(0)
  {
  }
}
