/**
 * Record references: a lookup field of one record points at another record
 * through a URL whose last 24 characters are the target's hexadecimal
 * record id.
 */
module RecordRef {
  import opened Records

  const RecordIdLength: nat := 24
  const RecordsBase: string := "https://my.living-apps.de/rest/apps/"

  /** The upper-case form of an ASCII letter; every other character is left alone. */
  function Canonical(c: char): char {
    if 'a' <= c <= 'z' then (c as int - 32) as char else c
  }

  /**
   * The class `[a-f0-9]` under the `i` flag: a character matches when its
   * canonical form is the canonical form of a member of the class.
   */
  predicate InHexClass(c: char) {
    var u := Canonical(c);
    ('0' <= u <= '9') || ('A' <= u <= 'F')
  }

  /** The class is exactly the digits and the letters a to f of either case. */
  lemma HexClassMembers(c: char)
    ensures InHexClass(c) <==> c in "0123456789abcdefABCDEF"
  {
  }

  predicate AllHex(s: string) {
    forall i :: 0 <= i < |s| ==> InHexClass(s[i])
  }

  /** A well-formed record id: 24 characters of the hex class. */
  predicate IsRecordId(s: string) {
    |s| == RecordIdLength && AllHex(s)
  }

  /** The pattern `([a-f0-9]{24})$` matches starting at position `p` of `u`. */
  predicate MatchesAt(u: string, p: nat) {
    p + RecordIdLength == |u| && AllHex(u[p..])
  }

  /** The leftmost position at or after `p` where the pattern matches, as `String.prototype.match` finds it. */
  function Search(u: string, p: nat): Option<nat>
    decreases |u| + 1 - p
  {
    if p > |u| then None
    else if MatchesAt(u, p) then Some(p)
    else Search(u, p + 1)
  }

  /** The end anchor leaves one candidate: the search succeeds exactly at the 24-character suffix. */
  lemma {:induction false} SearchFindsSuffix(u: string, p: nat)
    requires p <= |u|
    ensures Search(u, p) ==
      if p + RecordIdLength <= |u| && AllHex(u[|u| - RecordIdLength..])
      then Some(|u| - RecordIdLength) else None
    decreases |u| + 1 - p
  {
    if !MatchesAt(u, p) && p < |u| {
      SearchFindsSuffix(u, p + 1);
    }
  }

  /**
   * `extractRecordId(url)`: the record id at the end of a lookup URL, or
   * `None` for a missing or empty URL or one that does not end in 24 hex
   * characters. The id keeps the case it has in the URL.
   */
  function ExtractRecordId(url: Option<string>): (r: Option<string>)
    ensures r.Some? <==>
      url.Some? && |url.value| >= RecordIdLength && AllHex(url.value[|url.value| - RecordIdLength..])
    ensures r.Some? ==> IsRecordId(r.value) && r.value == url.value[|url.value| - RecordIdLength..]
  {
    if url.None? || url.value == "" then None
    else
      var u := url.value;
      SearchFindsSuffix(u, 0);
      match Search(u, 0)
      case Some(p) => Some(u[p..])
      case None => None
  }

  /** `createRecordUrl(appId, recordId)`: the lookup URL of a record. */
  function CreateRecordUrl(appId: string, recordId: string): (url: string)
    ensures |url| == |RecordsBase| + |appId| + |"/records/"| + |recordId|
    ensures RecordsBase <= url
    ensures url[|RecordsBase|..|RecordsBase| + |appId|] == appId
    ensures url[|RecordsBase| + |appId|..|url| - |recordId|] == "/records/"
    ensures url[|url| - |recordId|..] == recordId
  {
    RecordsBase + appId + "/records/" + recordId
  }

  /** Extracting the id from a URL built for a well-formed id gives that id back. */
  lemma RoundTrip(appId: string, recordId: string)
    requires IsRecordId(recordId)
    ensures ExtractRecordId(Some(CreateRecordUrl(appId, recordId))) == Some(recordId)
  {
    var url := CreateRecordUrl(appId, recordId);
    assert url[|url| - RecordIdLength..] == recordId;
  }
}
