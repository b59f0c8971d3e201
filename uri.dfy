/**
 * URL building shared by the fetchers and the preferences windows:
 * `encodeURIComponent`, the four-rule `joinUrl` and the status-page endpoint
 * template with its `{{slug}}` placeholder.
 */
module Uri {
  import opened Wrappers
  import opened Text

  // ---------------------------------------------------------------------------
  // encodeURIComponent

  /** The characters `encodeURIComponent` leaves as they are. */
  predicate Unreserved(c: char) {
    ('A' <= c <= 'Z') || ('a' <= c <= 'z') || ('0' <= c <= '9')
    || c == '-' || c == '_' || c == '.' || c == '!' || c == '~' || c == '*'
    || c == '\'' || c == '(' || c == ')'
  }

  predicate UpperHex(c: char) {
    ('0' <= c <= '9') || ('A' <= c <= 'F')
  }

  /** A character that can appear in the output of `encodeURIComponent`. */
  predicate EncodedChar(c: char) {
    Unreserved(c) || c == '%' || UpperHex(c)
  }

  function HexDigit(d: nat): (c: char)
    requires d < 16
    ensures UpperHex(c)
  {
    if d < 10 then ('0' as int + d) as char else ('A' as int + d - 10) as char
  }

  /** The UTF-8 encoding of one Unicode scalar value. */
  function Utf8(c: char): (r: seq<nat>)
    ensures 1 <= |r| <= 4
    ensures forall k :: 0 <= k < |r| ==> r[k] < 256
    ensures |r| == 1 <==> c as int < 0x80
  {
    var n := c as int;
    if n < 0x80 then [n]
    else if n < 0x800 then [0xC0 + n / 64, 0x80 + n % 64]
    else if n < 0x10000 then [0xE0 + n / 4096, 0x80 + (n / 64) % 64, 0x80 + n % 64]
    else [0xF0 + n / 262144, 0x80 + (n / 4096) % 64, 0x80 + (n / 64) % 64, 0x80 + n % 64]
  }

  /** `%XX` escapes, upper-case hex, for a sequence of bytes. */
  function PercentBytes(bytes: seq<nat>): (r: string)
    requires forall k :: 0 <= k < |bytes| ==> bytes[k] < 256
    ensures |r| == 3 * |bytes|
    ensures forall k :: 0 <= k < |r| ==> EncodedChar(r[k])
  {
    if bytes == [] then ""
    else ['%', HexDigit(bytes[0] / 16), HexDigit(bytes[0] % 16)] + PercentBytes(bytes[1..])
  }

  function EncodeChar(c: char): (r: string)
    ensures Unreserved(c) ==> r == [c]
    ensures !Unreserved(c) ==> 3 <= |r| <= 12 && r[0] == '%'
    ensures forall k :: 0 <= k < |r| ==> EncodedChar(r[k])
  {
    if Unreserved(c) then [c] else PercentBytes(Utf8(c))
  }

  /**
   * `encodeURIComponent(s)`: unreserved characters are kept, every other one is
   * replaced by the percent escapes of its UTF-8 bytes.
   */
  function EncodeUriComponent(s: string): (r: string)
    ensures |r| >= |s|
    ensures forall k :: 0 <= k < |r| ==> EncodedChar(r[k])
  {
    if s == [] then "" else EncodeChar(s[0]) + EncodeUriComponent(s[1..])
  }

  /** A string made only of unreserved characters is its own encoding. */
  lemma {:induction false} EncodeUnreservedIdentity(s: string)
    requires forall k :: 0 <= k < |s| ==> Unreserved(s[k])
    ensures EncodeUriComponent(s) == s
  {
    if s != [] {
      EncodeUnreservedIdentity(s[1..]);
      assert s == [s[0]] + s[1..];
    }
  }

  /**
   * The encoding never holds `$`, `/` or braces, so substituting it with
   * `String.prototype.replace` is literal and cannot introduce a path separator
   * or another placeholder.
   */
  lemma EncodedHasNoSpecials(s: string)
    ensures '$' !in EncodeUriComponent(s)
    ensures '/' !in EncodeUriComponent(s)
    ensures '{' !in EncodeUriComponent(s) && '}' !in EncodeUriComponent(s)
  {
  }

  // ---------------------------------------------------------------------------
  // joinUrl

  predicate IsAbsoluteUrl(path: string) {
    StartsWith(path, "http://") || StartsWith(path, "https://")
  }

  /** `base` without one trailing `/`. */
  function DropTrailingSlash(base: string): (r: string)
    ensures EndsWith(base, "/") ==> r + "/" == base
    ensures !EndsWith(base, "/") ==> r == base
  {
    if EndsWith(base, "/") then base[..|base| - 1] else base
  }

  /** `path` without one leading `/`. */
  function DropLeadingSlash(path: string): (r: string)
    ensures StartsWith(path, "/") ==> "/" + r == path
    ensures !StartsWith(path, "/") ==> r == path
  {
    if StartsWith(path, "/") then path[1..] else path
  }

  /**
   * `joinUrl(base, path)` (an empty string stands for a missing argument): a
   * missing side yields the other, an absolute path wins, and otherwise the two
   * are glued with a single `/`.
   */
  function JoinUrl(base: string, path: string): string {
    if base == "" then path
    else if path == "" then base
    else if IsAbsoluteUrl(path) then path
    else DropTrailingSlash(base) + "/" + DropLeadingSlash(path)
  }

  /**
   * The four rules of `joinUrl`, and what they give: the result always ends
   * with the path, and a relative path is separated from the base by exactly
   * the one `/` the join inserts.
   */
  lemma JoinUrlRules(base: string, path: string)
    ensures base == "" ==> JoinUrl(base, path) == path
    ensures base != "" && path == "" ==> JoinUrl(base, path) == base
    ensures base != "" && IsAbsoluteUrl(path) ==> JoinUrl(base, path) == path
    ensures base != "" && path != "" && !IsAbsoluteUrl(path) ==>
      JoinUrl(base, path) == DropTrailingSlash(base) + "/" + DropLeadingSlash(path)
      && EndsWith(JoinUrl(base, path), DropLeadingSlash(path))
      && StartsWith(JoinUrl(base, path), DropTrailingSlash(base) + "/")
  {
    if base != "" && path != "" && !IsAbsoluteUrl(path) {
      var r := DropTrailingSlash(base) + "/" + DropLeadingSlash(path);
      assert r[|r| - |DropLeadingSlash(path)|..] == DropLeadingSlash(path);
      assert r[..|DropTrailingSlash(base)| + 1] == DropTrailingSlash(base) + "/";
    }
  }

  /**
   * Joining is insensitive to one trailing slash on the base and one leading
   * slash on a relative path: all four spellings give the same URL.
   */
  lemma {:induction false} JoinUrlSlashInsensitive(base: string, path: string)
    requires base != "" && !EndsWith(base, "/")
    requires path != "" && !StartsWith(path, "/") && !IsAbsoluteUrl(path)
    ensures JoinUrl(base + "/", path) == base + "/" + path
    ensures JoinUrl(base, "/" + path) == base + "/" + path
    ensures JoinUrl(base + "/", "/" + path) == base + "/" + path
    ensures JoinUrl(base, path) == base + "/" + path
  {
    var b := base + "/";
    assert EndsWith(b, "/") && b[..|b| - 1] == base;
    var p := "/" + path;
    assert StartsWith(p, "/") && p[1..] == path;
    assert !IsAbsoluteUrl(p) by {
      assert p[0] == '/';
      assert "http://"[0] == 'h' && "https://"[0] == 'h';
    }
  }

  /** A path starting with any letter other than `h` is relative and kept whole. */
  lemma JoinPlainPath(base: string, path: string)
    requires base != "" && path != "" && path[0] != 'h' && path[0] != '/'
    ensures JoinUrl(base, path) == DropTrailingSlash(base) + "/" + path
  {
    assert !IsAbsoluteUrl(path) by {
      assert "http://"[0] == 'h' && "https://"[0] == 'h';
    }
    assert !StartsWith(path, "/");
  }

  // ---------------------------------------------------------------------------
  // Status-page endpoint

  const SlugPlaceholder := "{{slug}}"
  const DefaultStatusPageTemplate := "status/{{slug}}/status.json"
  const DefaultSlug := "default"

  /**
   * The status-page endpoint: an explicit JSON URL wins; otherwise the template
   * (default `status/{{slug}}/status.json`) gets its first `{{slug}}` replaced by
   * the encoded slug (default `default`), or `/<slug>` appended when it has no
   * placeholder.
   */
  function StatusPageEndpoint(jsonUrl: string, template: string, slug: string): (r: string)
    ensures jsonUrl != "" ==> r == jsonUrl
    ensures jsonUrl == "" ==>
      var t := if template == "" then DefaultStatusPageTemplate else template;
      var e := EncodeUriComponent(if slug == "" then DefaultSlug else slug);
      (Includes(t, SlugPlaceholder) ==>
        var i := IndexOf(t, SlugPlaceholder).value;
        r == t[..i] + e + t[i + |SlugPlaceholder|..])
      && (!Includes(t, SlugPlaceholder) ==> r == t + "/" + e)
  {
    if jsonUrl != "" then jsonUrl
    else
      var t := if template == "" then DefaultStatusPageTemplate else template;
      var e := EncodeUriComponent(if slug == "" then DefaultSlug else slug);
      if Includes(t, SlugPlaceholder) then ReplaceFirst(t, SlugPlaceholder, e) else t + "/" + e
  }

  /**
   * With the default template, a slug of unreserved characters lands verbatim
   * between `status/` and `/status.json`; an empty slug becomes `default`.
   */
  lemma {:induction false} DefaultEndpointShape(slug: string)
    requires forall k :: 0 <= k < |slug| ==> Unreserved(slug[k])
    ensures StatusPageEndpoint("", "", slug)
      == "status/" + (if slug == "" then DefaultSlug else slug) + "/status.json"
  {
    var s := if slug == "" then DefaultSlug else slug;
    EncodeUnreservedIdentity(s);
    DefaultTemplateSplit();
  }

  /** The default template's placeholder sits between `status/` and `/status.json`. */
  lemma DefaultTemplateSplit()
    ensures var t := DefaultStatusPageTemplate;
      IndexOf(t, SlugPlaceholder) == Some(7) && t[..7] == "status/" && t[15..] == "/status.json"
  {
    assert DefaultStatusPageTemplate == "status/" + SlugPlaceholder + "/status.json";
    FirstAfterPrefix("status/", SlugPlaceholder, "/status.json");
  }
}
