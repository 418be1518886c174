/**
 * The `path` helper of ApiService: a route such as `/pet/:id` becomes the
 * source of a regular expression in which every `:name` segment matches any
 * run of non-slash characters. The rewrite is `v.replace(/:\w+/g, '[^/]+')`;
 * only the string rewrite is modelled, not the matching of the compiled regex.
 */
module RoutePattern {

  /** What `path` returns: the route itself, or a regular expression over the rewritten source. */
  datatype PathPattern = Literal(route: string) | Regex(source: string)

  /** The replacement for each parameter segment. */
  const AnySegment: string := "[^/]+"

  /** `\w` without the unicode flag: ASCII letters, digits and underscore. */
  predicate IsWordChar(c: char)
  {
    ('a' <= c <= 'z') || ('A' <= c <= 'Z') || ('0' <= c <= '9') || c == '_'
  }

  /** `:\w+` matches at the start of `s`. */
  predicate ParamStart(s: string)
  {
    |s| >= 2 && s[0] == ':' && IsWordChar(s[1])
  }

  /** Length of the longest prefix of `s` made of word characters (greedy `\w+`). */
  function WordRun(s: string): (n: nat)
    ensures n <= |s|
    ensures forall i :: 0 <= i < n ==> IsWordChar(s[i])
    ensures n < |s| ==> !IsWordChar(s[n])
  {
    if s != [] && IsWordChar(s[0]) then 1 + WordRun(s[1..]) else 0
  }

  /**
   * `s.replace(/:\w+/g, '[^/]+')`: scanning left to right, each match of
   * `:` followed by a maximal run of word characters is replaced, and every
   * other character is copied.
   */
  function Rewrite(s: string): string
    decreases |s|
  {
    if s == [] then []
    else if ParamStart(s) then AnySegment + Rewrite(s[1 + WordRun(s[1..])..])
    else [s[0]] + Rewrite(s[1..])
  }

  /** `path(v)`: a regex over the rewritten route when `v` contains a colon, else `v` itself. */
  function Path(v: string): (p: PathPattern)
    ensures p.Literal? <==> ':' !in v
    ensures p.Literal? ==> p.route == v
    ensures p.Regex? ==> p.source == Rewrite(v) && NoParam(p.source)
  {
    if ':' in v then RewriteLeavesNoParam(v); Regex(Rewrite(v)) else Literal(v)
  }

  /** No `:` in `s` is immediately followed by a word character. */
  predicate NoParam(s: string)
  {
    forall i :: 0 <= i < |s| - 1 && s[i] == ':' ==> !IsWordChar(s[i + 1])
  }

  /** A route without parameter segments is rewritten to itself. */
  lemma {:induction false} RewriteWithoutParamIsIdentity(s: string)
    requires NoParam(s)
    ensures Rewrite(s) == s
  {
    if s != [] {
      assert !ParamStart(s);
      assert NoParam(s[1..]) by {
        forall i | 0 <= i < |s[1..]| - 1 && s[1..][i] == ':'
          ensures !IsWordChar(s[1..][i + 1])
        {
          assert s[i + 1] == ':';
        }
      }
      RewriteWithoutParamIsIdentity(s[1..]);
    }
  }

  /** The first character of a non-empty rewrite: `[` for a parameter, else the first input character. */
  lemma RewriteHead(s: string)
    requires s != []
    ensures Rewrite(s) != []
    ensures Rewrite(s)[0] == if ParamStart(s) then '[' else s[0]
  {
  }

  /** After the rewrite no parameter segment is left: every `:` kept is not followed by a word character. */
  lemma {:induction false} RewriteLeavesNoParam(s: string)
    ensures NoParam(Rewrite(s))
    decreases |s|
  {
    if s == [] {
    } else if ParamStart(s) {
      var rest := s[1 + WordRun(s[1..])..];
      RewriteLeavesNoParam(rest);
      NoParamConcat(AnySegment, Rewrite(rest));
    } else {
      RewriteLeavesNoParam(s[1..]);
      if s[0] == ':' && s[1..] != [] {
        RewriteHead(s[1..]);
      }
      NoParamConcat([s[0]], Rewrite(s[1..]));
    }
  }

  /** Two texts without parameter segments stay so when joined where no `:` meets a word character. */
  lemma NoParamConcat(a: string, b: string)
    requires NoParam(a) && NoParam(b)
    requires a == [] || b == [] || a[|a| - 1] != ':' || !IsWordChar(b[0])
    ensures NoParam(a + b)
  {
    var r := a + b;
    forall i | 0 <= i < |r| - 1 && r[i] == ':'
      ensures !IsWordChar(r[i + 1])
    {
      if i >= |a| {
        assert r[i] == b[i - |a|] && r[i + 1] == b[i - |a| + 1];
      } else if i + 1 < |a| {
        assert r[i] == a[i] && r[i + 1] == a[i + 1];
      } else {
        assert r[i] == a[|a| - 1] && r[i + 1] == b[0];
      }
    }
  }

  /** A word run stops at a following non-word character. */
  lemma {:induction false} WordRunStopsAtBoundary(a: string, b: string)
    requires b == [] || !IsWordChar(b[0])
    ensures WordRun(a + b) == WordRun(a)
    decreases |a|
  {
    if a == [] {
      assert a + b == b;
    } else if IsWordChar(a[0]) {
      assert (a + b)[1..] == a[1..] + b;
      WordRunStopsAtBoundary(a[1..], b);
    }
  }

  /** Appending text that starts with a non-word character does not create or remove a match at the front. */
  lemma ParamStartAppend(a: string, b: string)
    requires a != []
    requires b == [] || !IsWordChar(b[0])
    ensures ParamStart(a + b) == ParamStart(a)
  {
    if |a| == 1 {
      assert b != [] ==> (a + b)[1] == b[0];
    } else {
      assert (a + b)[0] == a[0] && (a + b)[1] == a[1];
    }
  }

  /**
   * A route splits at any character that is not a word character: the parts are
   * rewritten independently (in particular at every `/`).
   */
  lemma {:induction false} RewriteSplits(a: string, b: string)
    requires b == [] || !IsWordChar(b[0])
    ensures Rewrite(a + b) == Rewrite(a) + Rewrite(b)
    decreases |a|
  {
    if a == [] {
      assert a + b == b;
    } else {
      ParamStartAppend(a, b);
      assert (a + b)[1..] == a[1..] + b;
      if ParamStart(a) {
        WordRunStopsAtBoundary(a[1..], b);
        var n := 1 + WordRun(a[1..]);
        assert (a + b)[n..] == a[n..] + b;
        RewriteSplits(a[n..], b);
        AppendAssoc(AnySegment, Rewrite(a[n..]), Rewrite(b));
      } else {
        RewriteSplits(a[1..], b);
        AppendAssoc([a[0]], Rewrite(a[1..]), Rewrite(b));
      }
    }
  }

  lemma AppendAssoc(x: string, y: string, z: string)
    ensures x + (y + z) == (x + y) + z
  {
  }

  /** A parameter name: one or more word characters. */
  predicate IsWordName(name: string)
  {
    name != [] && forall i :: 0 <= i < |name| ==> IsWordChar(name[i])
  }

  /** A parameter segment `:name` becomes `[^/]+`. */
  lemma ParamSegment(name: string)
    requires IsWordName(name)
    ensures Rewrite([':'] + name) == AnySegment
  {
    var s := [':'] + name;
    assert s[1..] == name;
    assert WordRun(name) == |name| by {
      WordRunStopsAtBoundary(name, []);
      assert name + [] == name;
      WordRunAll(name);
    }
    assert s[1 + |name|..] == [];
  }

  lemma {:induction false} WordRunAll(s: string)
    requires forall i :: 0 <= i < |s| ==> IsWordChar(s[i])
    ensures WordRun(s) == |s|
  {
    if s != [] {
      WordRunAll(s[1..]);
    }
  }

  /** A character other than `:` is copied, and the rewrite continues after it. */
  lemma RewriteCopies(c: char, rest: string)
    requires c != ':'
    ensures Rewrite([c] + rest) == [c] + Rewrite(rest)
  {
    assert ([c] + rest)[1..] == rest;
  }

  /** Text without a colon is copied unchanged in front of the rewrite of what follows. */
  lemma {:induction false} RewriteKeepsLiteral(text: string, rest: string)
    requires ':' !in text
    ensures Rewrite(text + rest) == text + Rewrite(rest)
    decreases |text|
  {
    if text != [] {
      assert ':' !in text[1..] by {
        forall c | c in text[1..] ensures c != ':' {
          var k :| 0 <= k < |text[1..]| && text[1..][k] == c;
          assert text[k + 1] == c;
        }
      }
      RewriteKeepsLiteral(text[1..], rest);
      RewriteCopies(text[0], text[1..] + rest);
      AppendAssoc([text[0]], text[1..], Rewrite(rest));
      calc {
        Rewrite(text + rest);
        { assert text + rest == [text[0]] + (text[1..] + rest); }
        Rewrite([text[0]] + (text[1..] + rest));
        [text[0]] + Rewrite(text[1..] + rest);
        [text[0]] + (text[1..] + Rewrite(rest));
        ([text[0]] + text[1..]) + Rewrite(rest);
        { assert [text[0]] + text[1..] == text; }
        text + Rewrite(rest);
      }
    } else {
      assert text + rest == rest && text + Rewrite(rest) == Rewrite(rest);
    }
  }

  /** A parameter `:name` followed by a non-word character becomes `[^/]+` in front of the rewrite of the rest. */
  lemma RewriteReplacesParam(name: string, rest: string)
    requires IsWordName(name)
    requires rest == [] || !IsWordChar(rest[0])
    ensures Rewrite([':'] + name + rest) == AnySegment + Rewrite(rest)
  {
    RewriteSplits([':'] + name, rest);
    ParamSegment(name);
  }

  /**
   * A route with two parameter segments, shaped like `/:some/param/:random/string`
   * (lead `/`, middle `/param/`, tail `/string`): whatever the parameter names,
   * both segments become `[^/]+`, the colon-free text around them is kept in
   * order, and the result is a regular expression.
   */
  lemma TwoParamRoute(lead: string, first: string, middle: string, second: string, tail: string)
    requires ':' !in lead && ':' !in middle && ':' !in tail
    requires IsWordName(first) && IsWordName(second)
    requires middle != [] && !IsWordChar(middle[0])
    requires tail == [] || !IsWordChar(tail[0])
    ensures Path(lead + ([':'] + first + (middle + ([':'] + second + tail))))
            == Regex(lead + (AnySegment + (middle + (AnySegment + tail))))
  {
    var back := middle + ([':'] + second + tail);
    var route := lead + ([':'] + first + back);
    RewriteKeepsLiteral(tail, []);
    assert tail + [] == tail;
    RewriteReplacesParam(second, tail);
    RewriteKeepsLiteral(middle, [':'] + second + tail);
    RewriteReplacesParam(first, back);
    RewriteKeepsLiteral(lead, [':'] + first + back);
    assert route[|lead|] == ':';
  }
}
