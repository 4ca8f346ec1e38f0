/** Workload IDs and Kubernetes object names: the printer in transform.go and
    the parser and name scanners in validate.go. */
module Names {

  datatype Parsed = Parsed(kind: string, ns: string, name: string) | BadRequest(why: Defect)
  datatype Defect = Shape | UnknownKind(kind: string) | BadNamespace(ns: string) | BadName(name: string)

  datatype CutResult = Cut(before: string, after: string) | NotFound

  const WORKLOAD_KINDS: set<string> := {"deployment", "daemonSet", "statefulSet", "job"}

  // ---------------------------------------------------------------- printing

  function ResourceKey(ns: string, name: string): string
  {
    ns + "/" + name
  }

  function ResourceId(prefix: string, ns: string, name: string): string
  {
    prefix + ":" + ns + "/" + name
  }

  // ---------------------------------------------------------------- scanning

  predicate IsAlnum(c: char)
  {
    'a' <= c <= 'z' || '0' <= c <= '9'
  }

  /** Non-empty, only `[a-z0-9-]`, no hyphen first or last. */
  predicate IsLabelChars(s: string)
  {
    s != "" && forall i :: 0 <= i < |s| ==> IsAlnum(s[i]) || (s[i] == '-' && i != 0 && i != |s| - 1)
  }

  /** The scan of `isLabelChars`: left to right, stopping at the first bad
      character. */
  method ScanLabelChars(s: string) returns (ok: bool)
    ensures ok == IsLabelChars(s)
  {
    if s == "" {
      return false;
    }
    for i := 0 to |s|
      invariant forall k :: 0 <= k < i ==> IsAlnum(s[k]) || (s[k] == '-' && k != 0 && k != |s| - 1)
    {
      if !IsAlnum(s[i]) && (s[i] != '-' || i == 0 || i == |s| - 1) {
        return false;
      }
    }
    return true;
  }

  predicate IsLabel(s: string)
  {
    |s| <= 63 && IsLabelChars(s)
  }

  /** `strings.Split(s, ".")`. */
  function SplitDots(s: string): (parts: seq<string>)
    ensures parts != []
  {
    if s == "" then [""]
    else
      var rest := SplitDots(s[1..]);
      if s[0] == '.' then [""] + rest
      else [[s[0]] + rest[0]] + rest[1..]
  }

  predicate IsSubdomain(s: string)
  {
    |s| <= 253 && forall part :: part in SplitDots(s) ==> IsLabelChars(part)
  }

  // ----------------------------------------------------------------- parsing

  /** `strings.Cut(s, sep)` for a one-character separator. */
  function CutAt(s: string, sep: char): (r: CutResult)
    ensures r.Cut? ==> s == r.before + [sep] + r.after && sep !in r.before
    ensures r.NotFound? ==> sep !in s
  {
    if s == "" then NotFound
    else if s[0] == sep then Cut("", s[1..])
    else match CutAt(s[1..], sep)
      case NotFound => NotFound
      case Cut(b, a) => Cut([s[0]] + b, a)
  }

  function ParseWorkloadId(id: string): Parsed
  {
    match CutAt(id, ':')
    case NotFound => BadRequest(Shape)
    case Cut(kind, rest) =>
      match CutAt(rest, '/')
      case NotFound => BadRequest(Shape)
      case Cut(ns, name) =>
        if kind !in WORKLOAD_KINDS then BadRequest(UnknownKind(kind))
        else if !IsLabel(ns) then BadRequest(BadNamespace(ns))
        else if !IsSubdomain(name) then BadRequest(BadName(name))
        else Parsed(kind, ns, name)
  }

  predicate ValidNodeId(id: string)
  {
    IsSubdomain(id)
  }

  // ------------------------------------------------- the RFC 1123 reference

  /** `<let-dig>` in lower case. */
  predicate LetDig(c: char)
  {
    c in {'a', 'b', 'c', 'd', 'e', 'f', 'g', 'h', 'i', 'j', 'k', 'l', 'm', 'n', 'o', 'p', 'q', 'r', 's', 't', 'u', 'v',
          'w', 'x', 'y', 'z', '0', '1', '2', '3', '4', '5', '6', '7', '8', '9'}
  }

  /** `<label> ::= <let-dig> [ [ <ldh-str> ] <let-dig> ]`: section 2.1 of RFC
      1123 lets a label start with a digit. */
  predicate GrammarLabel(s: string)
  {
    s != "" && LetDig(s[0]) && (s[1..] == "" || GrammarTail(s[1..]))
  }

  /** `[ <ldh-str> ] <let-dig>` with `<ldh-str> ::= <let-dig-hyp>+`. */
  predicate GrammarTail(s: string)
  {
    s != "" && (if |s| == 1 then LetDig(s[0])
                else (LetDig(s[0]) || s[0] == '-') && GrammarTail(s[1..]))
  }

  function JoinDots(parts: seq<string>): string
    requires parts != []
  {
    if |parts| == 1 then parts[0] else parts[0] + "." + JoinDots(parts[1..])
  }

  /** A sequence of grammar labels joined by single dots. */
  ghost predicate GrammarSubdomain(s: string)
  {
    exists labels: seq<string> ::
      labels != [] && (forall l :: l in labels ==> GrammarLabel(l)) && s == JoinDots(labels)
  }

  // ------------------------------------------------------------------ lemmas

  /** The scan's two character ranges are the grammar's alphabet. */
  lemma AlnumIsLetDig(c: char)
    ensures IsAlnum(c) <==> LetDig(c)
  {}

  lemma {:induction false} TailMatchesScan(s: string)
    ensures GrammarTail(s) <==>
            s != "" && IsAlnum(s[|s| - 1]) && forall i :: 0 <= i < |s| ==> IsAlnum(s[i]) || s[i] == '-'
  {
    hide IsAlnum, LetDig;
    forall c ensures IsAlnum(c) <==> LetDig(c) { AlnumIsLetDig(c); }
    if |s| > 1 {
      TailMatchesScan(s[1..]);
      assert s[|s| - 1] == s[1..][|s| - 2];
      assert forall i :: 1 <= i < |s| ==> s[i] == s[1..][i - 1];
    }
  }

  /** The character scan accepts exactly the grammar's labels. */
  lemma LabelScanMatchesGrammar(s: string)
    ensures IsLabelChars(s) <==> GrammarLabel(s)
    ensures IsLabel(s) <==> GrammarLabel(s) && |s| <= 63
  {
    hide IsAlnum, LetDig;
    forall c ensures IsAlnum(c) <==> LetDig(c) { AlnumIsLetDig(c); }
    if |s| > 1 {
      TailMatchesScan(s[1..]);
      assert s[|s| - 1] == s[1..][|s| - 2];
      assert forall i :: 1 <= i < |s| ==> s[i] == s[1..][i - 1];
      if GrammarLabel(s) {
        forall i | 0 <= i < |s| ensures IsAlnum(s[i]) || (s[i] == '-' && i != 0 && i != |s| - 1) {}
      }
    }
  }

  lemma {:induction false} JoinSplit(s: string)
    ensures JoinDots(SplitDots(s)) == s
  {
    if s != "" {
      JoinSplit(s[1..]);
      var rest := SplitDots(s[1..]);
      if s[0] == '.' {
        assert ([""] + rest)[1..] == rest;
      } else {
        var parts := [[s[0]] + rest[0]] + rest[1..];
        assert parts[1..] == rest[1..];
      }
    }
  }

  lemma {:induction false} SplitAppend(a: string, b: string)
    requires '.' !in a
    ensures SplitDots(a + "." + b) == [a] + SplitDots(b)
    ensures SplitDots(a) == [a]
  {
    if a == "" {
      assert a + "." + b == "." + b;
      assert ("." + b)[1..] == b;
    } else {
      SplitAppend(a[1..], b);
      assert (a + "." + b)[1..] == a[1..] + "." + b;
      assert [a[0]] + a[1..] == a;
    }
  }

  lemma {:induction false} SplitJoin(labels: seq<string>)
    requires labels != [] && forall l :: l in labels ==> '.' !in l
    ensures SplitDots(JoinDots(labels)) == labels
  {
    if |labels| == 1 {
      SplitAppend(labels[0], "");
    } else {
      SplitJoin(labels[1..]);
      SplitAppend(labels[0], JoinDots(labels[1..]));
      assert labels == [labels[0]] + labels[1..];
    }
  }

  /** An accepted subdomain is exactly a dot-joined list of grammar labels of
      at most 253 characters in all. */
  lemma SubdomainScanMatchesGrammar(s: string)
    ensures IsSubdomain(s) <==> |s| <= 253 && GrammarSubdomain(s)
  {
    if IsSubdomain(s) {
      var parts := SplitDots(s);
      forall l | l in parts ensures GrammarLabel(l) {
        LabelScanMatchesGrammar(l);
      }
      JoinSplit(s);
    }
    if |s| <= 253 && GrammarSubdomain(s) {
      var labels :| labels != [] && (forall l :: l in labels ==> GrammarLabel(l)) && s == JoinDots(labels);
      forall l | l in labels ensures IsLabelChars(l) && '.' !in l {
        LabelScanMatchesGrammar(l);
      }
      SplitJoin(labels);
    }
  }

  lemma {:induction false} SplitPart(s: string, i: nat)
    requires i < |s| && s[i] != '.'
    ensures exists part :: part in SplitDots(s) && s[i] in part
  {
    var rest := SplitDots(s[1..]);
    if i == 0 {
      assert SplitDots(s)[0] == [s[0]] + rest[0];
      assert s[0] in SplitDots(s)[0];
    } else {
      SplitPart(s[1..], i - 1);
      var part :| part in rest && s[i] in part;
      var k :| 0 <= k < |rest| && rest[k] == part;
      if s[0] == '.' {
        assert SplitDots(s)[k + 1] == part;
      } else if k == 0 {
        var first := [s[0]] + part;
        assert SplitDots(s)[0] == first;
        assert s[i] in first && first in SplitDots(s);
      } else {
        assert SplitDots(s)[k] == part;
      }
    }
  }

  lemma {:induction false} AdjacentDots(s: string, i: nat)
    requires i + 1 < |s| && s[i] == '.' && s[i + 1] == '.'
    ensures "" in SplitDots(s)[1..]
    ensures !IsSubdomain(s)
  {
    var rest := SplitDots(s[1..]);
    if i == 0 {
      assert rest == [""] + SplitDots(s[1..][1..]);
      assert SplitDots(s) == [""] + rest;
      assert SplitDots(s)[1] == "";
    } else {
      AdjacentDots(s[1..], i - 1);
      if s[0] == '.' {
        assert SplitDots(s)[1..] == rest;
      } else {
        assert SplitDots(s)[1..] == rest[1..];
      }
    }
    var parts := SplitDots(s);
    assert "" in parts && !IsLabelChars("");
  }

  /** What validation buys: an accepted name cannot hold "/", "%", ",", "=",
      ":" or "..", so it stays inside one path segment and one selector term. */
  lemma AcceptedNamesAreInert(s: string)
    requires IsSubdomain(s)
    ensures forall c :: c in s ==> LetDig(c) || c == '-' || c == '.'
    ensures '/' !in s && '%' !in s && ',' !in s && '=' !in s && ':' !in s
    ensures forall i :: 0 <= i < |s| - 1 ==> !(s[i] == '.' && s[i + 1] == '.')
    ensures s != ""
  {
    assert SplitDots("") == [""] && "" in SplitDots("");
    forall i | 0 <= i < |s| ensures LetDig(s[i]) || s[i] == '-' || s[i] == '.' {
      AlnumIsLetDig(s[i]);
      if s[i] != '.' {
        SplitPart(s, i);
      }
    }
    forall i | 0 <= i < |s| - 1 && s[i] == '.' && s[i + 1] == '.' ensures false {
      AdjacentDots(s, i);
    }
  }

  lemma {:induction false} CutFirst(before: string, sep: char, after: string)
    requires sep !in before
    ensures CutAt(before + [sep] + after, sep) == Cut(before, after)
  {
    var s := before + [sep] + after;
    if before == "" {
      assert s[1..] == after;
    } else {
      CutFirst(before[1..], sep, after);
      assert s[1..] == before[1..] + [sep] + after;
      assert [before[0]] + before[1..] == before;
    }
  }

  /** Parsing undoes printing, on every triple the gateway accepts. */
  lemma ParsePrint(kind: string, ns: string, name: string)
    requires kind in WORKLOAD_KINDS && IsLabel(ns) && IsSubdomain(name)
    ensures ParseWorkloadId(ResourceId(kind, ns, name)) == Parsed(kind, ns, name)
  {
    var rest := ns + "/" + name;
    assert ResourceId(kind, ns, name) == kind + ":" + rest;
    assert ':' !in kind;
    CutFirst(kind, ':', rest);
    assert '/' !in ns;
    CutFirst(ns, '/', name);
  }

  /** Printing undoes parsing: an accepted ID is the print of its parts, and
      the parts are valid. */
  lemma PrintParse(id: string)
    requires ParseWorkloadId(id).Parsed?
    ensures var p := ParseWorkloadId(id);
            p.kind in WORKLOAD_KINDS && IsLabel(p.ns) && IsSubdomain(p.name) &&
            id == ResourceId(p.kind, p.ns, p.name)
  {
    var c := CutAt(id, ':');
    var d := CutAt(c.after, '/');
    assert id == c.before + ":" + c.after;
    assert c.before + ":" + (d.before + "/" + d.after) == c.before + ":" + d.before + "/" + d.after;
  }

  /** The ID of a workload whose parts the grammar allows, spelt out. */
  ghost predicate Prints(id: string, kind: string, ns: string, name: string)
  {
    && kind in {"deployment", "daemonSet", "statefulSet", "job"}
    && |ns| <= 63 && GrammarLabel(ns) && |name| <= 253 && GrammarSubdomain(name)
    && id == kind + ":" + ns + "/" + name
  }

  /** An ID is accepted exactly when it prints some valid triple, and it is
      parsed into that one. */
  lemma AcceptedIdsAreThePrints(id: string)
    ensures ParseWorkloadId(id).Parsed? <==> exists kind, ns, name :: Prints(id, kind, ns, name)
    ensures forall kind, ns, name :: Prints(id, kind, ns, name) ==> ParseWorkloadId(id) == Parsed(kind, ns, name)
  {
    hide IsLabel, IsSubdomain, GrammarLabel, GrammarSubdomain, ParseWorkloadId;
    forall s ensures IsLabel(s) <==> GrammarLabel(s) && |s| <= 63 { LabelScanMatchesGrammar(s); }
    forall s ensures IsSubdomain(s) <==> |s| <= 253 && GrammarSubdomain(s) { SubdomainScanMatchesGrammar(s); }
    if ParseWorkloadId(id).Parsed? {
      PrintParse(id);
      var p := ParseWorkloadId(id);
      assert Prints(id, p.kind, p.ns, p.name);
    }
    forall kind, ns, name | Prints(id, kind, ns, name) ensures ParseWorkloadId(id) == Parsed(kind, ns, name) {
      ParsePrint(kind, ns, name);
    }
  }

  /** Why an ID is refused: it cannot be cut in three, or names the first part
      that is wrong, the earlier ones being right. */
  lemma RefusedIdSaysWhy(id: string)
    requires ParseWorkloadId(id).BadRequest?
    ensures match ParseWorkloadId(id).why
            case Shape => forall kind, ns, name :: id != kind + ":" + ns + "/" + name
            case UnknownKind(kind) =>
              kind !in {"deployment", "daemonSet", "statefulSet", "job"} && exists ns, name :: id == kind + ":" + ns + "/" + name
            case BadNamespace(ns) =>
              && !(GrammarLabel(ns) && |ns| <= 63)
              && exists kind, name :: kind in {"deployment", "daemonSet", "statefulSet", "job"}
                                      && id == kind + ":" + ns + "/" + name
            case BadName(name) =>
              && !(|name| <= 253 && GrammarSubdomain(name))
              && exists kind, ns :: kind in {"deployment", "daemonSet", "statefulSet", "job"} && GrammarLabel(ns) && |ns| <= 63
                                    && id == kind + ":" + ns + "/" + name
  {
    hide IsSubdomain, GrammarLabel, GrammarSubdomain;
    match CutAt(id, ':') {
      case NotFound =>
        forall kind, ns, name ensures id != kind + ":" + ns + "/" + name {
          assert ':' in kind + ":" + ns + "/" + name;
        }
      case Cut(kind, rest) =>
        assert id == kind + ":" + rest;
        match CutAt(rest, '/') {
          case NotFound =>
            forall k, ns, name ensures id != k + ":" + ns + "/" + name {
              SlashAfterColon(id, kind, rest, k, ns, name);
            }
          case Cut(ns, name) =>
            assert kind + ":" + (ns + "/" + name) == kind + ":" + ns + "/" + name;
            LabelScanMatchesGrammar(ns);
            SubdomainScanMatchesGrammar(name);
        }
    }
  }

  lemma SlashAfterColon(id: string, kind: string, rest: string, k: string, ns: string, name: string)
    requires id == kind + ":" + rest && ':' !in kind && '/' !in rest
    ensures id != k + ":" + ns + "/" + name
  {
    var other := k + ":" + ns + "/" + name;
    assert other[|k|] == ':' && other[|k| + 1 + |ns|] == '/';
  }

  /** Resource keys of slash-free namespaces never collide. */
  lemma ResourceKeyInjective(n1: string, m1: string, n2: string, m2: string)
    requires '/' !in n1 && '/' !in n2
    requires ResourceKey(n1, m1) == ResourceKey(n2, m2)
    ensures n1 == n2 && m1 == m2
  {
    CutFirst(n1, '/', m1);
    CutFirst(n2, '/', m2);
  }
}
