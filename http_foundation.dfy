/** The slice of the HTTP framework that the content-negotiation middleware
    touches: header bags (case-insensitive header names, first-value lookup,
    replacing assignment), the incoming request and the outgoing response. */
module HttpFoundation {

  datatype Option<+T> = None | Some(value: T)

  // ---------------------------------------------------------------------------
  // Header names
  // ---------------------------------------------------------------------------

  /** A character that header-name folding leaves alone. */
  predicate IsFoldedChar(c: char) {
    !('A' <= c <= 'Z') && c != '_'
  }

  /** A header name as a header bag stores it. */
  predicate IsNormalName(name: string) {
    forall i :: 0 <= i < |name| ==> IsFoldedChar(name[i])
  }

  /** Header bags fold the ASCII capitals to lower case and `_` to `-`. */
  function FoldChar(c: char): (d: char)
    ensures IsFoldedChar(d)
    ensures IsFoldedChar(c) ==> d == c
    ensures c == '_' ==> d == '-'
    ensures 'A' <= c <= 'Z' ==> 'a' <= d <= 'z' && d as int - 'a' as int == c as int - 'A' as int
  {
    if c == '_' then '-'
    else if 'A' <= c <= 'Z' then (c as int - 'A' as int + 'a' as int) as char
    else c
  }

  /** The key under which a header bag files the header `name`. */
  function NormalizeName(name: string): (key: string)
    ensures |key| == |name|
    ensures forall i :: 0 <= i < |name| ==> key[i] == FoldChar(name[i])
    ensures IsNormalName(key)
  {
    seq(|name|, i requires 0 <= i < |name| => FoldChar(name[i]))
  }

  /** Folding is a projection: a folded name is its own key, and only those are. */
  lemma NormalizeNameFixesExactlyNormalNames(name: string)
    ensures NormalizeName(name) == name <==> IsNormalName(name)
  {
  }

  lemma NormalizeNameIdempotent(name: string)
    ensures NormalizeName(NormalizeName(name)) == NormalizeName(name)
  {
    NormalizeNameFixesExactlyNormalNames(NormalizeName(name));
  }

  // ---------------------------------------------------------------------------
  // Header bags as values
  // ---------------------------------------------------------------------------

  /** Folded header name to the list of values stored for it. */
  type Entries = map<string, seq<string>>

  /** `get($name)`: the first value stored under the folded name, or null
      (None) when the header is absent. */
  function Lookup(entries: Entries, name: string): Option<string>
  {
    var key := NormalizeName(name);
    if key in entries && |entries[key]| > 0 then Some(entries[key][0]) else None
  }

  /** `set($name, $value)` with replacement: the header holds exactly one value
      afterwards, whatever it held before; every other header is untouched. */
  function Put(entries: Entries, name: string, value: string): (r: Entries)
    ensures NormalizeName(name) in r && r[NormalizeName(name)] == [value]
    ensures Lookup(r, name) == Some(value)
    ensures r.Keys == entries.Keys + {NormalizeName(name)}
    ensures forall k :: k in entries && k != NormalizeName(name) ==> r[k] == entries[k]
  {
    entries[NormalizeName(name) := [value]]
  }

  /** Header names are compared case-insensitively (and `_` as `-`). */
  lemma LookupIgnoresNameSpelling(entries: Entries, a: string, b: string)
    requires NormalizeName(a) == NormalizeName(b)
    ensures Lookup(entries, a) == Lookup(entries, b)
  {
  }

  /** Reading a header after setting one: the set header answers the new
      value under every spelling of its name; every other header reads as before. */
  lemma LookupAfterPut(entries: Entries, name: string, value: string, other: string)
    ensures Lookup(Put(entries, name, value), other)
         == if NormalizeName(other) == NormalizeName(name) then Some(value) else Lookup(entries, other)
  {
  }

  /** Setting the same header to the same value twice is setting it once. */
  lemma PutIdempotent(entries: Entries, name: string, value: string)
    ensures Put(Put(entries, name, value), name, value) == Put(entries, name, value)
  {
  }

  /** A set leaves the rest of the bag exactly as it was. */
  lemma PutChangesOnlyItsKey(entries: Entries, name: string, value: string)
    ensures Put(entries, name, value) - {NormalizeName(name)} == entries - {NormalizeName(name)}
  {
  }

  // ---------------------------------------------------------------------------
  // Requests and responses
  // ---------------------------------------------------------------------------

  /** ASCII upper-casing of one character, as `strtoupper` does it. */
  function UpperChar(c: char): (d: char)
    ensures !('a' <= d <= 'z')
    ensures !('a' <= c <= 'z') ==> d == c
    ensures 'a' <= c <= 'z' ==> 'A' <= d <= 'Z' && d as int - 'A' as int == c as int - 'a' as int
  {
    if 'a' <= c <= 'z' then (c as int - 'a' as int + 'A' as int) as char else c
  }

  /** A string without ASCII lower-case letters. */
  predicate IsUpperCase(s: string) {
    forall i :: 0 <= i < |s| ==> !('a' <= s[i] <= 'z')
  }

  /** `strtoupper`: upper-cases every ASCII letter and leaves the rest. */
  function ToUpper(s: string): (r: string)
    ensures |r| == |s|
    ensures forall i :: 0 <= i < |s| ==> r[i] == UpperChar(s[i])
    ensures IsUpperCase(r)
  {
    if s == [] then [] else [UpperChar(s[0])] + ToUpper(s[1..])
  }

  /** Upper-casing leaves exactly the strings without lower-case letters
      alone, so a method name written in capitals compares as written. */
  lemma ToUpperFixesExactlyUpperCase(s: string)
    ensures ToUpper(s) == s <==> IsUpperCase(s)
  {
  }

  lemma ToUpperIdempotent(s: string)
    ensures ToUpper(ToUpper(s)) == ToUpper(s)
  {
    ToUpperFixesExactlyUpperCase(ToUpper(s));
  }

  /** An incoming request as the middleware sees it: the method as the client
      sent it, its header bag, and the keys of its input (query string and
      body parameters merged). */
  datatype Request = Request(rawMethod: string, headers: Entries, inputKeys: set<string>)
  {
    /** `getMethod()`: the method, upper-cased. */
    function Method(): (m: string)
      ensures IsUpperCase(m) && |m| == |rawMethod|
    {
      ToUpper(rawMethod)
    }

    /** `isMethod($m)`, with `m` written in capitals (`strtoupper` leaves it
        as it is): the upper-cased method equals `m`. */
    predicate IsMethod(m: string) {
      Method() == m
    }

    /** `has($key)` for a key without dots: the key is present in the input. */
    predicate Has(key: string) {
      key in inputKeys
    }
  }

  /** A mutable header bag, owned by a response. */
  class HeaderBag {
    var entries: Entries

    constructor ()
      ensures entries == map[]
    {
      entries := map[];
    }

    /** `set($name, $value)`: replaces whatever the header held. */
    method Set(name: string, value: string)
      modifies this
      ensures entries == Put(old(entries), name, value)
    {
      entries := Put(entries, name, value);
    }
  }

  /** An outgoing response: status code, body and its own header bag. */
  class Response {
    var status: int
    var content: string
    const headers: HeaderBag

    /** `new Response($content, $status)`. */
    constructor (body: string, code: int)
      ensures content == body && status == code
      ensures fresh(headers) && headers.entries == map[]
    {
      content := body;
      status := code;
      headers := new HeaderBag();
    }
  }
}
