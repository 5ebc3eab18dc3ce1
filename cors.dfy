/**
 * `getCorsOrigin`: turns the raw `APP_CORS_ORIGIN` value into the origin
 * option handed to the CORS middleware: a boolean, the wildcard `"*"`, or a
 * duplicate-free list of origins with their localhost and `www.` variants.
 */
module Cors {
  import opened Wrappers
  import opened JsString

  /** What `getCorsOrigin` returns: `true`/`false`, the string `"*"`, or a list of origins. */
  datatype CorsOrigin = CorsFlag(allow: bool) | CorsWildcard | CorsList(origins: seq<string>)

  const LocalhostPrefix := "http://localhost"
  const LoopbackPrefix := "http://127.0.0.1"
  const HttpsPrefix := "https://"
  const WwwHttpsPrefix := "https://www."
  const WwwMarker := "://www."

  /** The inputs answered before any splitting: `"true"`, `"false"`, `"*"`, `""` and `undefined`. */
  predicate IsLiteral(raw: Option<string>) {
    raw.None? || raw.value == "true" || raw.value == "false" || raw.value == "*" || raw.value == ""
  }

  /** `corsOrigin.split(',').map((o) => o.trim())`. */
  function Tokens(raw: string): seq<string>
  {
    var parts := Split(raw, ',');
    seq(|parts|, i requires 0 <= i < |parts| => Trim(parts[i]))
  }

  /** A token that also stands for its `http://127.0.0.1` form. */
  predicate HasLoopbackForm(origin: string) {
    StartsWith(origin, LocalhostPrefix)
  }

  function LoopbackForm(origin: string): string {
    ReplaceFirst(origin, LocalhostPrefix, LoopbackPrefix)
  }

  /** A token that also stands for its `https://www.` form. */
  predicate HasWwwForm(origin: string) {
    StartsWith(origin, HttpsPrefix) && !Includes(origin, WwwMarker)
  }

  function WwwForm(origin: string): string {
    ReplaceFirst(origin, HttpsPrefix, WwwHttpsPrefix)
  }

  /** What one token inserts into the set, in insertion order: itself, its loopback form, its `www.` form. */
  function Expansions(origin: string): seq<string>
  {
    var own := [origin];
    var withLoopback := if HasLoopbackForm(origin) then own + [LoopbackForm(origin)] else own;
    if HasWwwForm(origin) then withLoopback + [WwwForm(origin)] else withLoopback
  }

  /** Everything the loop inserts, in the order it inserts it, repetitions included. */
  function Candidates(tokens: seq<string>): (c: seq<string>)
    ensures forall x :: x in c <==> exists k :: 0 <= k < |tokens| && x in Expansions(tokens[k])
  {
    if tokens == [] then []
    else
      var n := |tokens| - 1;
      var c := Candidates(tokens[..n]) + Expansions(tokens[n]);
      assert forall k :: 0 <= k < n ==> tokens[..n][k] == tokens[k];
      c
  }

  /** `Set.prototype.add` on a set kept in insertion order: a new element goes last, a present one changes nothing. */
  function SetAdd(s: seq<string>, x: string): seq<string>
  {
    if x in s then s else s + [x]
  }

  /** The set obtained by adding the elements of `s` one after the other, listed in iteration order. */
  function InsertAll(s: seq<string>): seq<string>
  {
    if s == [] then [] else SetAdd(InsertAll(s[..|s| - 1]), s[|s| - 1])
  }

  lemma InsertAllSnoc(before: seq<string>, inserted: seq<string>, x: string)
    ensures InsertAll(before + (inserted + [x])) == SetAdd(InsertAll(before + inserted), x)
  {
    var s := before + inserted;
    assert before + (inserted + [x]) == s + [x];
    assert (s + [x])[..|s|] == s;
  }

  lemma CandidatesSnoc(tokens: seq<string>, i: nat)
    requires i < |tokens|
    ensures Candidates(tokens[..i + 1]) == Candidates(tokens[..i]) + Expansions(tokens[i])
  {
    assert tokens[..i + 1][..i] == tokens[..i];
  }

  predicate NoDuplicates(s: seq<string>) {
    forall i, j :: 0 <= i < j < |s| ==> s[i] != s[j]
  }

  /** The position of the first occurrence of `x` in `s`. */
  function FirstIndex(s: seq<string>, x: string): (r: nat)
    requires x in s
    ensures r < |s| && s[r] == x
    ensures forall k :: 0 <= k < r ==> s[k] != x
  {
    if s[0] == x then 0 else 1 + FirstIndex(s[1..], x)
  }

  lemma FirstIndexAppend(p: seq<string>, y: string, x: string)
    requires x in p + [y]
    ensures x in p ==> FirstIndex(p + [y], x) == FirstIndex(p, x)
    ensures x !in p ==> FirstIndex(p + [y], x) == |p|
  {
    var s := p + [y];
    var b := FirstIndex(s, x);
    if x in p {
      var a := FirstIndex(p, x);
      assert s[a] == x;
      assert b <= a;
      assert b < |p| ==> s[b] == p[b];
    } else {
      assert forall k :: 0 <= k < |p| ==> s[k] == p[k];
    }
  }

  /**
   * Iterating the set gives each distinct element once, exactly the
   * elements inserted, ordered by when each was first inserted.
   */
  lemma {:induction false} InsertAllSpec(s: seq<string>)
    ensures NoDuplicates(InsertAll(s))
    ensures forall x :: x in InsertAll(s) <==> x in s
    ensures forall i, j :: 0 <= i < j < |InsertAll(s)| ==>
      InsertAll(s)[i] in s && InsertAll(s)[j] in s &&
      FirstIndex(s, InsertAll(s)[i]) < FirstIndex(s, InsertAll(s)[j])
  {
    if s != [] {
      var p, y := s[..|s| - 1], s[|s| - 1];
      assert s == p + [y];
      InsertAllSpec(p);
      var d := InsertAll(p);
      var e := InsertAll(s);
      assert e == SetAdd(d, y);
      forall x | x in p
        ensures FirstIndex(s, x) == FirstIndex(p, x)
      {
        FirstIndexAppend(p, y, x);
      }
      if y !in d {
        FirstIndexAppend(p, y, y);
        forall i, j | 0 <= i < j < |e|
          ensures e[i] in s && e[j] in s && FirstIndex(s, e[i]) < FirstIndex(s, e[j])
        {
          if j < |d| {
            assert e[i] == d[i] && e[j] == d[j];
          } else {
            assert e[j] == y && e[i] == d[i];
          }
        }
      }
    }
  }

  /**
   * The body of the `forEach` callback: add `origin`, then its loopback
   * form, then its `www.` form, to the set `originsSet` built from `before`.
   */
  method AddOrigin(originsSet: seq<string>, ghost before: seq<string>, origin: string) returns (r: seq<string>)
    requires originsSet == InsertAll(before)
    ensures r == InsertAll(before + Expansions(origin))
  {
    ghost var inserted: seq<string> := [];
    assert before + inserted == before;
    InsertAllSnoc(before, inserted, origin);
    r, inserted := SetAdd(originsSet, origin), inserted + [origin];
    if StartsWith(origin, LocalhostPrefix) {
      var loopback := ReplaceFirst(origin, LocalhostPrefix, LoopbackPrefix);
      InsertAllSnoc(before, inserted, loopback);
      r, inserted := SetAdd(r, loopback), inserted + [loopback];
    }
    assert inserted == if HasLoopbackForm(origin) then [origin] + [LoopbackForm(origin)] else [origin];
    if StartsWith(origin, HttpsPrefix) && !Includes(origin, WwwMarker) {
      var www := ReplaceFirst(origin, HttpsPrefix, WwwHttpsPrefix);
      InsertAllSnoc(before, inserted, www);
      r, inserted := SetAdd(r, www), inserted + [www];
    }
    assert inserted == Expansions(origin);
  }

  /** `getCorsOrigin` as a value: what the `app` section stores under `APP_CORS_ORIGIN`. */
  function ExpandCorsOrigin(raw: Option<string>): (r: CorsOrigin)
    ensures r == CorsFlag(true) <==> raw == Some("true")
    ensures r == CorsFlag(false) <==> raw.None? || raw == Some("") || raw == Some("false")
    ensures r == CorsWildcard <==> raw == Some("*")
    ensures r.CorsList? <==> !IsLiteral(raw)
  {
    if raw == Some("true") then CorsFlag(true)
    else if raw.None? || raw.value == "" || raw.value == "false" then CorsFlag(false)
    else if raw == Some("*") then CorsWildcard
    else CorsList(InsertAll(Candidates(Tokens(raw.value))))
  }

  /** `getCorsOrigin`: the literal checks, then the loop that fills the set token by token. */
  method GetCorsOrigin(corsOrigin: Option<string>) returns (r: CorsOrigin)
    ensures corsOrigin == Some("true") ==> r == CorsFlag(true)
    ensures corsOrigin.None? || corsOrigin == Some("") || corsOrigin == Some("false") ==> r == CorsFlag(false)
    ensures corsOrigin == Some("*") ==> r == CorsWildcard
    ensures !IsLiteral(corsOrigin) ==> r == CorsList(InsertAll(Candidates(Tokens(corsOrigin.value))))
    ensures r == ExpandCorsOrigin(corsOrigin)
  {
    if corsOrigin == Some("true") {
      return CorsFlag(true);
    }
    if corsOrigin.None? || corsOrigin.value == "" || corsOrigin.value == "false" {
      return CorsFlag(false);
    }
    if corsOrigin.value == "*" {
      return CorsWildcard;
    }
    var rawOrigins := Tokens(corsOrigin.value);
    var originsSet: seq<string> := [];
    var i := 0;
    while i < |rawOrigins|
      invariant 0 <= i <= |rawOrigins|
      invariant originsSet == InsertAll(Candidates(rawOrigins[..i]))
    {
      originsSet := AddOrigin(originsSet, Candidates(rawOrigins[..i]), rawOrigins[i]);
      CandidatesSnoc(rawOrigins, i);
      i := i + 1;
    }
    assert rawOrigins[..i] == rawOrigins;
    return CorsList(originsSet);
  }

  /**
   * Outside the literal inputs the result is a list that holds each distinct
   * token or token variant once, holds nothing else, and lists them in the
   * order they were first inserted.
   */
  lemma CorsListSpec(raw: Option<string>)
    requires !IsLiteral(raw)
    ensures ExpandCorsOrigin(raw).CorsList?
    ensures var tokens, origins := Tokens(raw.value), ExpandCorsOrigin(raw).origins;
      && NoDuplicates(origins)
      && (forall x :: x in origins <==> exists k :: 0 <= k < |tokens| && x in Expansions(tokens[k]))
    ensures var inserted, origins := Candidates(Tokens(raw.value)), ExpandCorsOrigin(raw).origins;
      forall i, j :: 0 <= i < j < |origins| ==>
        origins[i] in inserted && origins[j] in inserted &&
        FirstIndex(inserted, origins[i]) < FirstIndex(inserted, origins[j])
  {
    var tokens := Tokens(raw.value);
    var inserted := Candidates(tokens);
    ListCase(raw);
    InsertAllSpec(inserted);
  }

  /** Outside the literal inputs, an origin is listed exactly when some token brings it in. */
  lemma CorsListMembers(raw: Option<string>, x: string)
    requires !IsLiteral(raw)
    ensures var tokens := Tokens(raw.value);
      x in ExpandCorsOrigin(raw).origins <==> exists k :: 0 <= k < |tokens| && x in Expansions(tokens[k])
  {
    CorsListSpec(raw);
  }

  /** Past the literal checks, the result is the set filled by the loop. */
  lemma ListCase(raw: Option<string>)
    requires !IsLiteral(raw)
    ensures ExpandCorsOrigin(raw) == CorsList(InsertAll(Candidates(Tokens(raw.value))))
  {
  }

  /** A token brings in itself and, when it has them, its loopback and `www.` forms. */
  lemma ExpansionsInclude(origin: string)
    ensures origin in Expansions(origin)
    ensures HasLoopbackForm(origin) ==> LoopbackForm(origin) in Expansions(origin)
    ensures HasWwwForm(origin) ==> WwwForm(origin) in Expansions(origin)
  {
  }

  /** Whatever the `k`-th token brings in is listed. */
  lemma ExpansionListed(raw: Option<string>, k: nat, x: string)
    requires !IsLiteral(raw) && k < |Tokens(raw.value)|
    requires x in Expansions(Tokens(raw.value)[k])
    ensures x in ExpandCorsOrigin(raw).origins
  {
    CorsListMembers(raw, x);
  }

  /** Every comma-separated piece, trimmed, is in the list; empty pieces included. */
  lemma TokenPresent(raw: Option<string>, k: nat)
    requires !IsLiteral(raw) && k < |Split(raw.value, ',')|
    ensures Trim(Split(raw.value, ',')[k]) in ExpandCorsOrigin(raw).origins
  {
    var token := Tokens(raw.value)[k];
    assert token == Trim(Split(raw.value, ',')[k]);
    ExpansionsInclude(token);
    ExpansionListed(raw, k, token);
  }

  /** A piece starting with `http://localhost` brings in its `http://127.0.0.1` form as well. */
  lemma LoopbackFormPresent(raw: Option<string>, k: nat)
    requires !IsLiteral(raw) && k < |Split(raw.value, ',')|
    requires StartsWith(Trim(Split(raw.value, ',')[k]), LocalhostPrefix)
    ensures var token := Trim(Split(raw.value, ',')[k]);
      LoopbackPrefix + token[|LocalhostPrefix|..] in ExpandCorsOrigin(raw).origins
  {
    var token := Tokens(raw.value)[k];
    assert token == Trim(Split(raw.value, ',')[k]);
    ExpansionsInclude(token);
    ExpansionListed(raw, k, LoopbackForm(token));
  }

  /** A piece starting with `https://` and not containing `://www.` brings in its `https://www.` form. */
  lemma WwwFormPresent(raw: Option<string>, k: nat)
    requires !IsLiteral(raw) && k < |Split(raw.value, ',')|
    requires StartsWith(Trim(Split(raw.value, ',')[k]), HttpsPrefix)
    requires !Includes(Trim(Split(raw.value, ',')[k]), WwwMarker)
    ensures var token := Trim(Split(raw.value, ',')[k]);
      WwwHttpsPrefix + token[|HttpsPrefix|..] in ExpandCorsOrigin(raw).origins
  {
    var token := Tokens(raw.value)[k];
    assert token == Trim(Split(raw.value, ',')[k]);
    ExpansionsInclude(token);
    ExpansionListed(raw, k, WwwForm(token));
  }

  /**
   * Empty pieces are kept, not dropped: input made only of white space
   * (`" "`, say) is no literal and yields the empty string as an origin.
   */
  lemma WhiteSpaceOnlyListsEmptyOrigin(raw: string)
    requires raw != [] && AllWhiteSpace(raw)
    ensures ExpandCorsOrigin(Some(raw)).CorsList?
    ensures "" in ExpandCorsOrigin(Some(raw)).origins
  {
    assert !IsWhiteSpace(',');
    assert ',' !in raw by {
      forall k | 0 <= k < |raw| ensures raw[k] != ',' {
        assert IsWhiteSpace(raw[k]);
      }
    }
    assert !IsLiteral(Some(raw)) by {
      assert IsWhiteSpace(raw[0]);
      assert !IsWhiteSpace("true"[0]) && !IsWhiteSpace("false"[0]) && !IsWhiteSpace("*"[0]);
    }
    SplitWithoutSeparator(raw, ',');
    TrimAllWhiteSpace(raw);
    TokenPresent(Some(raw), 0);
    ListCase(Some(raw));
  }

  /** An `https://` origin that already contains `://www.` contributes only itself. */
  lemma WwwOriginAlone(origin: string)
    requires StartsWith(origin, HttpsPrefix) && Includes(origin, WwwMarker)
    ensures Expansions(origin) == [origin]
  {
    HttpsIsNotLocalhost(origin);
  }

  /** The fifth character tells the two prefixes apart. */
  lemma HttpsIsNotLocalhost(origin: string)
    requires StartsWith(origin, HttpsPrefix)
    ensures !StartsWith(origin, LocalhostPrefix)
  {
    assert origin[..|HttpsPrefix|][4] == 's';
    assert LocalhostPrefix[4] == ':';
  }

  /** A token that is neither a localhost nor an `https://` origin contributes only itself. */
  lemma PlainOrigin(origin: string)
    requires !StartsWith(origin, LocalhostPrefix) && !StartsWith(origin, HttpsPrefix)
    ensures Expansions(origin) == [origin]
  {
  }
}
