/** String helpers of the Go and Python standard libraries that the repository
    relies on, and the functions of other libraries it treats as given. */
module Strings {

  datatype Option<+T> = None | Some(value: T)

  datatype IntOrString = IntValue(number: int) | StringValue(text: string)

  /** Library functions whose definitions are not part of this model. Every
      theorem holds whatever these functions compute. The validator and the
      controller receive the same record, hence the same `parseQuantity`. */
  datatype Library = Library(
    parseQuantity: string -> Option<int>,
    dnsLabelErrors: string -> seq<string>,
    dnsSubdomainErrors: string -> seq<string>,
    isIP: string -> bool,
    parseIntOrString: string -> IntOrString,
    itoa: int -> string,
    toLower: string -> string)

  /** Go's `unicode.IsSpace`. */
  predicate IsSpace(c: char) {
    || '\t' <= c <= '\r' || c == ' ' || c == '\U{0085}' || c == '\U{00A0}' || c == '\U{1680}'
    || '\U{2000}' <= c <= '\U{200A}' || '\U{2028}' <= c <= '\U{2029}' || c == '\U{202F}' || c == '\U{205F}'
    || c == '\U{3000}'
  }

  /** Nothing but white space. */
  predicate Blank(s: string) {
    forall i :: 0 <= i < |s| ==> IsSpace(s[i])
  }

  predicate HasPrefix(s: string, prefix: string) {
    |prefix| <= |s| && s[..|prefix|] == prefix
  }

  function OrElse(s: string, fallback: string): (r: string)
    ensures fallback != "" ==> r != ""
    ensures s != "" ==> r == s
    ensures s == "" ==> r == fallback
  {
    if s == "" then fallback else s
  }

  /** `strings.Contains`. */
  predicate Contains(s: string, part: string) {
    exists i | 0 <= i <= |s| :: HasPrefix(s[i..], part)
  }

  /** `strings.TrimSpace`. */
  function TrimSpace(s: string): string {
    if s == "" then s
    else if IsSpace(s[0]) then TrimSpace(s[1..])
    else if IsSpace(s[|s| - 1]) then TrimSpace(s[..|s| - 1])
    else s
  }

  /** Trimming leaves nothing exactly where there is nothing but white space. */
  lemma TrimSpaceEmpty(s: string)
    ensures TrimSpace(s) == "" <==> Blank(s)
  {
    if s == "" {
    } else if IsSpace(s[0]) {
      TrimSpaceEmpty(s[1..]);
      assert s == [s[0]] + s[1..];
      if Blank(s[1..]) {
        forall i | 0 <= i < |s| ensures IsSpace(s[i]) {
          if i > 0 { assert s[i] == s[1..][i - 1]; }
        }
      } else {
        var i :| 0 <= i < |s[1..]| && !IsSpace(s[1..][i]);
        assert !IsSpace(s[i + 1]);
      }
    } else if IsSpace(s[|s| - 1]) {
      TrimSpaceEmpty(s[..|s| - 1]);
      assert s[..|s| - 1][0] == s[0];
      assert !Blank(s[..|s| - 1]);
    }
  }
}
