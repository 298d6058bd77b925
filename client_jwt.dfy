/**
 * The client-side reading of an access token. Both socket hooks take the
 * second `.`-separated segment and decode it, but not in the same way:
 * the text-chat hook translates the Base64url alphabet and decodes the
 * bytes as UTF-8, the EVI hook hands the segment to `atob` as it is.
 * `atob`, the UTF-8 step and `JSON.parse` are oracles that yield `None`
 * where they throw.
 */
module ClientJwt {
  import opened Wrappers
  import opened Text

  /** The claims the hooks read. `exp` is `None` when absent or not a number. */
  datatype Payload = Payload(exp: Option<int>, userId: Option<string>)

  /**
   * The decoding steps: `atob` (Base64 text to a binary string), the
   * percent-encoding of every character followed by `decodeURIComponent`
   * (reading the binary string as UTF-8), and `JSON.parse`.
   */
  datatype Decoders = Decoders(
    atob: string -> Option<string>,
    utf8: string -> Option<string>,
    parse: string -> Option<Payload>)

  /** `atob` accepts only the standard alphabet: it throws on `-` and `_`. */
  ghost predicate StrictAtob(d: Decoders)
  {
    forall s :: '-' in s || '_' in s ==> d.atob(s).None?
  }

  /** `replace(/-/g, '+').replace(/_/g, '/')`: Base64url to standard Base64. */
  function FromBase64Url(s: string): (r: string)
    ensures |r| == |s|
    ensures forall i :: 0 <= i < |s| ==> r[i] == (if s[i] == '-' then '+' else if s[i] == '_' then '/' else s[i])
    ensures '-' !in r && '_' !in r
  {
    if s == [] then []
    else [if s[0] == '-' then '+' else if s[0] == '_' then '/' else s[0]] + FromBase64Url(s[1..])
  }

  /** A segment already in the standard alphabet is left as it is. */
  lemma {:induction false} FromBase64UrlKeepsStandard(s: string)
    requires '-' !in s && '_' !in s
    ensures FromBase64Url(s) == s
  {
    if s != [] {
      FromBase64UrlKeepsStandard(s[1..]);
    }
  }

  /**
   * `decodeJwt` of the chat hook: `null` without a non-empty second segment;
   * otherwise the segment is translated to standard Base64, passed through
   * `atob`, read as UTF-8 and parsed, and `null` where any step throws.
   */
  function DecodeJwt(token: string, d: Decoders): (r: Option<Payload>)
    ensures SecondPart(token, '.').None? || SecondPart(token, '.').value == "" ==> r.None?
    ensures SecondPart(token, '.').Some? && SecondPart(token, '.').value != "" ==>
              var bin := d.atob(FromBase64Url(SecondPart(token, '.').value));
              (r.Some? <==> bin.Some? && d.utf8(bin.value).Some? && d.parse(d.utf8(bin.value).value).Some?)
              && (r.Some? ==> r == d.parse(d.utf8(bin.value).value))
  {
    match SecondPart(token, '.')
    case None => None
    case Some(seg) =>
      if seg == "" then None
      else
        match d.atob(FromBase64Url(seg))
        case None => None
        case Some(bin) =>
          match d.utf8(bin)
          case None => None
          case Some(json) => d.parse(json)
  }
}
