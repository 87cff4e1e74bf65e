/** The picture a product card shows: the listing's own image URL, or a
    generated placeholder that spells out the product name. */
module ProductCard {

  const PlaceholderPrefix := "https://placehold.co/400x180/E0E0E0/666666?text="

  /** The characters the JavaScript regular-expression class `\s` matches. */
  predicate IsWhitespace(c: char) {
    || c == ' ' || c == '\t' || c == '\n' || c == '\r'
    || c == '\U{000B}' || c == '\U{000C}' || c == '\U{00A0}' || c == '\U{1680}'
    || ('\U{2000}' <= c <= '\U{200A}')
    || c == '\U{2028}' || c == '\U{2029}' || c == '\U{202F}' || c == '\U{205F}'
    || c == '\U{3000}' || c == '\U{FEFF}'
  }

  /** `s.replace(/\s/g, '+')`. */
  function ReplaceWhitespace(s: string): (r: string)
    ensures |r| == |s|
    ensures forall i :: 0 <= i < |s| && IsWhitespace(s[i]) ==> r[i] == '+'
    ensures forall i :: 0 <= i < |s| && !IsWhitespace(s[i]) ==> r[i] == s[i]
    ensures forall i :: 0 <= i < |r| ==> !IsWhitespace(r[i])
  {
    if s == [] then []
    else [if IsWhitespace(s[0]) then '+' else s[0]] + ReplaceWhitespace(s[1..])
  }

  /** `product.imageUrl || placeholder`: an empty URL falls back to the
      placeholder for the name. */
  function ImageSrc(imageUrl: string, name: string): (r: string)
    ensures imageUrl != "" ==> r == imageUrl
    ensures imageUrl == "" ==> |r| == |PlaceholderPrefix| + |name|
    ensures imageUrl == "" ==> r[..|PlaceholderPrefix|] == PlaceholderPrefix
    ensures imageUrl == "" ==> forall i :: |PlaceholderPrefix| <= i < |r| ==> !IsWhitespace(r[i])
    ensures imageUrl == "" ==> forall i :: 0 <= i < |name| && !IsWhitespace(name[i]) ==> r[|PlaceholderPrefix| + i] == name[i]
  {
    if imageUrl != "" then imageUrl else PlaceholderPrefix + ReplaceWhitespace(name)
  }

  /** A name without whitespace appears in the placeholder verbatim. */
  lemma PlaceholderKeepsPlainName(name: string)
    requires forall i :: 0 <= i < |name| ==> !IsWhitespace(name[i])
    ensures ImageSrc("", name) == PlaceholderPrefix + name
  {
    assert ReplaceWhitespace(name) == name;
  }
}
