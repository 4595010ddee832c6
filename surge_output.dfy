/** The Surge branch of both handlers on a whole list: keep the supported types,
    map each record to its line or `undefined`, drop the `undefined`s and join
    what is left with newlines. */
module SurgeOutput {
  import opened Wrappers
  import opened Text
  import opened Proxies
  import opened Surge
  import Seqs

  /** `supportedProxies`: the records whose `type` is one Surge knows. */
  function Supported(ps: seq<Proxy>): seq<Proxy>
  {
    Seqs.Filter(ps, IsSupported)
  }

  /** `surgeProxies`: one line, or `undefined`, per record. */
  function Translated(ps: seq<Proxy>): seq<Option<string>>
  {
    if ps == [] then [] else [SurgeLine(ps[0])] + Translated(ps[1..])
  }

  /** The `p !== undefined` filter. */
  function Defined(os: seq<Option<string>>): seq<string>
  {
    if os == [] then [] else (if os[0].Some? then [os[0].value] else []) + Defined(os[1..])
  }

  /** The lines of the Surge response, in input order. */
  function SurgeLines(ps: seq<Proxy>): seq<string>
  {
    Defined(Translated(Supported(ps)))
  }

  /** The Surge response body: the lines joined with `\n`, no trailing newline. */
  function SurgeBody(ps: seq<Proxy>): string
  {
    Join(SurgeLines(ps), "\n")
  }

  lemma {:induction false} TranslatedMembers(ps: seq<Proxy>, o: Option<string>)
    ensures o in Translated(ps) <==> exists p :: p in ps && SurgeLine(p) == o
  {
    if ps != [] {
      TranslatedMembers(ps[1..], o);
      assert ps == [ps[0]] + ps[1..];
    }
  }

  lemma {:induction false} DefinedMembers(os: seq<Option<string>>, l: string)
    ensures l in Defined(os) <==> Some(l) in os
  {
    if os != [] {
      DefinedMembers(os[1..], l);
      assert os == [os[0]] + os[1..];
    }
  }

  lemma {:induction false} TranslatedAppend(a: seq<Proxy>, b: seq<Proxy>)
    ensures Translated(a + b) == Translated(a) + Translated(b)
  {
    if a == [] {
      assert a + b == b;
    } else {
      TranslatedAppend(a[1..], b);
      assert (a + b)[1..] == a[1..] + b;
    }
  }

  lemma {:induction false} DefinedAppend(x: seq<Option<string>>, y: seq<Option<string>>)
    ensures Defined(x + y) == Defined(x) + Defined(y)
  {
    if x == [] {
      assert x + y == y;
    } else {
      DefinedAppend(x[1..], y);
      assert (x + y)[1..] == x[1..] + y;
    }
  }

  /** A line is in the response exactly when some record of the list yields it. */
  lemma {:induction false} SurgeLinesMembers(ps: seq<Proxy>, l: string)
    ensures l in SurgeLines(ps) <==> exists p :: p in ps && SurgeLine(p) == Some(l)
  {
    DefinedMembers(Translated(Supported(ps)), l);
    TranslatedMembers(Supported(ps), Some(l));
    forall p | SurgeLine(p) == Some(l)
      ensures p in Supported(ps) <==> p in ps
    {
      Seqs.FilterMembership(ps, IsSupported, p);
    }
  }

  /** The response of a concatenated list is the concatenation of the responses:
      lines come out in input order, record by record. */
  lemma {:induction false} SurgeLinesAppend(a: seq<Proxy>, b: seq<Proxy>)
    ensures SurgeLines(a + b) == SurgeLines(a) + SurgeLines(b)
  {
    Seqs.FilterAppend(a, b, IsSupported);
    TranslatedAppend(Supported(a), Supported(b));
    DefinedAppend(Translated(Supported(a)), Translated(Supported(b)));
  }

  /** A single record contributes its own line, or nothing when it yields none. */
  lemma {:induction false} SurgeLinesSingle(p: Proxy)
    ensures SurgeLines([p]) == if SurgeLine(p).Some? then [SurgeLine(p).value] else []
  {
    assert [p][1..] == [];
    assert Supported([p]) == (if IsSupported(p) then [p] else []) + Seqs.Filter([], IsSupported);
    if IsSupported(p) {
      assert Translated([p]) == [SurgeLine(p)] + Translated([]);
      assert Defined([SurgeLine(p)]) == (if SurgeLine(p).Some? then [SurgeLine(p).value] else []) + Defined([]);
    }
  }

  /** The type filter in front of the translator drops only records the translator
      would have turned into `undefined` anyway. */
  lemma {:induction false} SupportFilterRedundant(ps: seq<Proxy>)
    ensures SurgeLines(ps) == Defined(Translated(ps))
  {
    if ps != [] {
      SupportFilterRedundant(ps[1..]);
      assert ps == [ps[0]] + ps[1..];
      SurgeLinesAppend([ps[0]], ps[1..]);
      TranslatedAppend([ps[0]], ps[1..]);
      DefinedAppend(Translated([ps[0]]), Translated(ps[1..]));
      SurgeLinesSingle(ps[0]);
      assert Translated([ps[0]]) == [SurgeLine(ps[0])] + Translated([]);
      assert Defined([SurgeLine(ps[0])]) == (if SurgeLine(ps[0]).Some? then [SurgeLine(ps[0]).value] else []) + Defined([]);
    }
  }

  /** No emitted line is empty: each begins with a name and ` = `. */
  lemma {:induction false} LinesNonEmpty(ps: seq<Proxy>)
    ensures forall l :: l in SurgeLines(ps) ==> |l| > 0
  {
    forall l | l in SurgeLines(ps)
      ensures |l| > 0
    {
      SurgeLinesMembers(ps, l);
      var p :| p in ps && SurgeLine(p) == Some(l);
      LineStartsWithName(p);
    }
  }

  /** The Surge body is empty exactly when no record yields a line. */
  lemma {:induction false} SurgeBodyEmpty(ps: seq<Proxy>)
    ensures SurgeBody(ps) == "" <==> forall p :: p in ps ==> SurgeLine(p).None?
  {
    JoinEmpty(SurgeLines(ps), "\n");
    LinesNonEmpty(ps);
    if SurgeLines(ps) != [] {
      var l := SurgeLines(ps)[0];
      SurgeLinesMembers(ps, l);
    } else {
      forall p | p in ps
        ensures SurgeLine(p).None?
      {
        if SurgeLine(p).Some? {
          SurgeLinesMembers(ps, SurgeLine(p).value);
        }
      }
    }
  }

  /** Reading the body back line by line gives the emitted lines, provided no field
      that reaches a line contains a newline. */
  lemma {:induction false} SurgeBodyLines(ps: seq<Proxy>)
    requires SurgeLines(ps) != []
    requires forall i :: 0 <= i < |SurgeLines(ps)| ==> '\n' !in SurgeLines(ps)[i]
    ensures SplitLines(SurgeBody(ps)) == SurgeLines(ps)
  {
    JoinSplitRoundTrip(SurgeLines(ps));
  }

  /** The body has at most one line per input record. */
  lemma {:induction false} SurgeLinesCount(ps: seq<Proxy>)
    ensures |SurgeLines(ps)| <= |ps|
  {
    if ps != [] {
      SurgeLinesCount(ps[1..]);
      assert ps == [ps[0]] + ps[1..];
      SurgeLinesAppend([ps[0]], ps[1..]);
      SurgeLinesSingle(ps[0]);
    }
  }
}
