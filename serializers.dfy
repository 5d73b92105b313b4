/**
 * `APODSerializer.to_representation`: the raw record NASA returns, reshaped into
 * the six-field payload the service serves and caches.
 */
module Serializers {
  import opened Json

  /** The six keys of every payload. */
  const OutputKeys: set<string> := {"date", "title", "explanation", "media_type", "media_url", "copyright"}

  /**
   * The media URL for a record: an image prefers a truthy `hdurl` and falls back
   * to `url` (Python's `or`, so an empty `hdurl` falls back too); a video and any
   * other or missing media type use `url`.
   */
  function MediaUrl(raw: Object): (u: Json)
    ensures Get(raw, "media_type") == JStr("image") && Truthy(Get(raw, "hdurl")) ==> u == Get(raw, "hdurl")
    ensures Get(raw, "media_type") == JStr("image") && !Truthy(Get(raw, "hdurl")) ==> u == Get(raw, "url")
    ensures Get(raw, "media_type") != JStr("image") ==> u == Get(raw, "url")
  {
    var mediaType := Get(raw, "media_type");
    if mediaType == JStr("image") then Or(Get(raw, "hdurl"), Get(raw, "url"))
    else if mediaType == JStr("video") then Get(raw, "url")
    else Get(raw, "url")
  }

  /**
   * The payload for a raw record. Total: it only reads fields with `.get`, so a
   * record with missing fields yields None (JSON null) in their place.
   */
  function ToRepresentation(raw: Object): (p: Object)
    ensures p.Keys == OutputKeys
    ensures "url" !in p && "hdurl" !in p
    ensures p["date"] == Get(raw, "date")
    ensures p["title"] == Get(raw, "title")
    ensures p["explanation"] == Get(raw, "explanation")
    ensures p["media_type"] == Get(raw, "media_type")
    ensures p["copyright"] == Get(raw, "copyright")
    ensures p["media_url"] == MediaUrl(raw)
  {
    map[
      "date" := Get(raw, "date"),
      "title" := Get(raw, "title"),
      "explanation" := Get(raw, "explanation"),
      "media_type" := Get(raw, "media_type"),
      "media_url" := MediaUrl(raw),
      "copyright" := Get(raw, "copyright")
    ]
  }

  /** A payload is a dict with six keys, so `if cached:` always treats a stored payload as a hit. */
  lemma RepresentationIsTruthy(raw: Object)
    ensures Truthy(JObj(ToRepresentation(raw)))
  {
    var p := ToRepresentation(raw);
    assert "date" in p;
  }

  /** A video's media URL is its `url`, whatever its `hdurl` says. */
  lemma VideoIgnoresHdurl(raw: Object, hd: Json)
    requires Get(raw, "media_type") == JStr("video")
    ensures ToRepresentation(raw["hdurl" := hd])["media_url"] == Get(raw, "url")
  {
    var r := raw["hdurl" := hd];
    assert Get(r, "media_type") == JStr("video");
    assert Get(r, "url") == Get(raw, "url");
  }

  /** The payload depends only on the seven fields it reads, not on extra fields of the record. */
  lemma RepresentationIgnoresOtherFields(raw: Object, key: string, v: Json)
    requires key !in {"date", "title", "explanation", "media_type", "url", "hdurl", "copyright"}
    ensures ToRepresentation(raw[key := v]) == ToRepresentation(raw)
  {
    var r := raw[key := v];
    assert Get(r, "media_type") == Get(raw, "media_type");
    assert Get(r, "hdurl") == Get(raw, "hdurl");
    assert Get(r, "url") == Get(raw, "url");
    assert MediaUrl(r) == MediaUrl(raw);
  }

  /** An image with both URLs shows `hdurl`; with an empty `hdurl` it falls back to `url`. */
  lemma ImageExamples()
    ensures ToRepresentation(map["media_type" := JStr("image"), "url" := JStr("u"), "hdurl" := JStr("h")])["media_url"] == JStr("h")
    ensures ToRepresentation(map["media_type" := JStr("image"), "url" := JStr("u"), "hdurl" := JStr("")])["media_url"] == JStr("u")
  {
  }

  /** A video with both URLs shows `url`; a record with no fields gives the six keys, all null. */
  lemma OtherExamples()
    ensures ToRepresentation(map["media_type" := JStr("video"), "url" := JStr("u"), "hdurl" := JStr("h")])["media_url"] == JStr("u")
    ensures ToRepresentation(map[]) == map k | k in OutputKeys :: JNull
  {
    var empty: Object := map[];
    assert ToRepresentation(empty).Keys == (map k | k in OutputKeys :: JNull).Keys;
  }
}
