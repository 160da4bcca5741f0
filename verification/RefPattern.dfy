/** internal/authz/ref.go: ref constraints. */
module RefPattern {

  datatype MatchResult = Matched(ok: bool) | Malformed

  /** strings.IndexByte: the first position of `c`, or -1. */
  function IndexOf(s: string, c: char): (i: int)
    ensures i == -1 <==> c !in s
    ensures -1 <= i < |s|
    ensures i >= 0 ==> s[i] == c && forall j :: 0 <= j < i ==> s[j] != c
  {
    if s == "" then -1
    else if s[0] == c then 0
    else
      var i := IndexOf(s[1..], c);
      assert s == [s[0]] + s[1..];
      if i == -1 then -1 else i + 1
  }

  predicate Rejects(p: string) {
    p != "*" && (p == "" || (IndexOf(p, '*') >= 0 && IndexOf(p, '*') != |p| - 1))
  }

  /** The first loop: does some pattern fail validation? */
  predicate AnyRejected(allowed: seq<string>) {
    allowed != [] && (Rejects(allowed[0]) || AnyRejected(allowed[1..]))
  }

  predicate Accepts(p: string, ref: string) {
    if p == "*" then true
    else if p != "" && p[|p| - 1] == '*' then p[..|p| - 1] <= ref
    else p == ref
  }

  /** The second loop: does some pattern match? */
  predicate AnyAccepts(allowed: seq<string>, ref: string) {
    allowed != [] && (Accepts(allowed[0], ref) || AnyAccepts(allowed[1..], ref))
  }

  function MatchRef(allowed: seq<string>, ref: string): MatchResult {
    if allowed == [] then Matched(true)
    else if AnyRejected(allowed) then Malformed
    else if ref == "" then Matched(false)
    else Matched(AnyAccepts(allowed, ref))
  }

  /* What a pattern means, independently of the loops. */

  /** A pattern is a literal, or a literal prefix and one closing star. */
  predicate WellFormed(p: string) {
    p != "" && forall i :: 0 <= i < |p| - 1 ==> p[i] != '*'
  }

  /** The refs a well-formed pattern stands for. */
  ghost predicate Denotes(p: string, ref: string)
    requires p != ""
  {
    if p[|p| - 1] == '*' then exists rest :: IsConcat(Stem(p), rest, ref)
    else ref == p
  }

  function Stem(p: string): string
    requires p != ""
  {
    p[..|p| - 1]
  }

  predicate IsConcat(stem: string, rest: string, ref: string) {
    ref == stem + rest
  }

  lemma RejectsMeans(p: string)
    ensures Rejects(p) <==> !WellFormed(p)
  {
    if p != "" && p != "*" && IndexOf(p, '*') >= 0 && IndexOf(p, '*') == |p| - 1 {
      assert WellFormed(p);
    }
  }

  lemma AcceptsMeans(p: string, ref: string)
    requires p != ""
    ensures Accepts(p, ref) <==> Denotes(p, ref)
  {
    if p[|p| - 1] == '*' {
      var stem := Stem(p);
      if stem <= ref {
        assert IsConcat(stem, ref[|stem|..], ref);
      }
      if p == "*" {
        assert stem == "" && IsConcat(stem, ref, ref);
      }
    }
  }

  lemma {:induction false} AnyRejectedMeans(allowed: seq<string>)
    ensures AnyRejected(allowed) <==> exists p :: p in allowed && !WellFormed(p)
  {
    if allowed != [] {
      RejectsMeans(allowed[0]);
      AnyRejectedMeans(allowed[1..]);
      assert allowed == [allowed[0]] + allowed[1..];
    }
  }

  lemma {:induction false} AnyAcceptsMeans(allowed: seq<string>, ref: string)
    requires forall p :: p in allowed ==> p != ""
    ensures AnyAccepts(allowed, ref) <==> exists p :: p in allowed && Denotes(p, ref)
  {
    if allowed != [] {
      assert allowed[0] in allowed;
      assert forall p :: p in allowed[1..] ==> p in allowed;
      AcceptsMeans(allowed[0], ref);
      AnyAcceptsMeans(allowed[1..], ref);
      assert allowed == [allowed[0]] + allowed[1..];
    }
  }

  /** The whole meaning of a constraint list: an error exactly when some entry
      is malformed, wherever it stands; otherwise true exactly when the list is
      empty, or the ref is not and some entry stands for it. */
  lemma MatchRefMeans(allowed: seq<string>, ref: string)
    ensures MatchRef(allowed, ref) == Malformed <==> exists p :: p in allowed && !WellFormed(p)
    ensures MatchRef(allowed, ref) == Matched(true) <==>
            && (forall p :: p in allowed ==> WellFormed(p))
            && (allowed == [] || (ref != "" && exists p :: p in allowed && Denotes(p, ref)))
  {
    if allowed != [] {
      AnyRejectedMeans(allowed);
      if !AnyRejected(allowed) {
        AnyAcceptsMeans(allowed, ref);
      }
      assert allowed[0] in allowed;
    }
  }

  /** Order and repetition of the entries do not matter. */
  lemma MatchRefOrderFree(a: seq<string>, b: seq<string>, ref: string)
    requires forall p :: p in a <==> p in b
    ensures MatchRef(a, ref) == MatchRef(b, ref)
  {
    MatchRefMeans(a, ref);
    MatchRefMeans(b, ref);
    if a != [] { assert a[0] in b; }
    if b != [] { assert b[0] in a; }
  }

  /** Adding a well-formed entry to a non-empty list only widens it, by exactly
      the refs the entry stands for; adding a malformed one denies everything. */
  lemma MatchRefAdd(allowed: seq<string>, p: string, ref: string)
    requires allowed != []
    ensures !WellFormed(p) ==> MatchRef(allowed + [p], ref) == Malformed
    ensures WellFormed(p) && MatchRef(allowed, ref).Matched? ==>
              && MatchRef(allowed + [p], ref).Matched?
              && (MatchRef(allowed + [p], ref).ok <==>
                    MatchRef(allowed, ref).ok || (ref != "" && Denotes(p, ref)))
  {
    MatchRefMeans(allowed, ref);
    MatchRefMeans(allowed + [p], ref);
    assert p in allowed + [p];
    assert forall q :: q in allowed ==> q in allowed + [p];
  }
}
