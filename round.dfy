/** One round of js/app.js `nextQuestion`: the options are tagged with their original
    position (`q.o.map((opt, i) => ({ opt, idx: i }))`), the tagged list is shuffled, and the
    round keeps the shuffled texts and the position where the original right answer landed. */
module Round {

  datatype Tagged = Tagged(opt: string, idx: int)

  /** `q.o.map((opt, i) => ({ opt, idx: i }))`. */
  function Tag(o: seq<string>): (r: seq<Tagged>)
    ensures |r| == |o|
    ensures forall i :: 0 <= i < |o| ==> r[i] == Tagged(o[i], i)
  {
    seq(|o|, i requires 0 <= i < |o| => Tagged(o[i], i))
  }

  /** `shuffled.map(s => s.opt)`. */
  function Opts(s: seq<Tagged>): (r: seq<string>)
    ensures |r| == |s|
    ensures forall i :: 0 <= i < |s| ==> r[i] == s[i].opt
  {
    seq(|s|, i requires 0 <= i < |s| => s[i].opt)
  }

  /** `shuffled.findIndex(s => s.idx === a)`: the first position holding tag `a`, or -1. */
  function FindIdx(s: seq<Tagged>, a: int): (k: int)
    ensures -1 <= k < |s|
    ensures k >= 0 ==> s[k].idx == a && forall j :: 0 <= j < k ==> s[j].idx != a
    ensures k == -1 <==> forall j :: 0 <= j < |s| ==> s[j].idx != a
  {
    if s == [] then -1
    else if s[0].idx == a then 0
    else var k := FindIdx(s[1..], a); if k == -1 then -1 else k + 1
  }

  lemma OptsAppend(x: seq<Tagged>, y: seq<Tagged>)
    ensures Opts(x + y) == Opts(x) + Opts(y)
  {
  }

  /** Rearranging tagged options rearranges their texts the same way. */
  lemma {:induction false} OptsPreservesMultiset(x: seq<Tagged>, y: seq<Tagged>)
    requires multiset(x) == multiset(y)
    ensures multiset(Opts(x)) == multiset(Opts(y))
    decreases |x|
  {
    if x == [] {
      assert |y| == |multiset(y)| == 0;
    } else {
      var e := x[0];
      assert e in multiset(y);
      var k :| 0 <= k < |y| && y[k] == e;
      var y' := y[..k] + y[k + 1..];
      assert y == y[..k] + [e] + y[k + 1..];
      assert x == [e] + x[1..];
      calc {
        multiset(x[1..]);
        multiset(x) - multiset{e};
        multiset(y) - multiset{e};
        multiset(y[..k]) + multiset{e} + multiset(y[k + 1..]) - multiset{e};
        multiset(y');
      }
      OptsPreservesMultiset(x[1..], y');
      OptsAppend([e], x[1..]);
      OptsAppend(y[..k] + [e], y[k + 1..]);
      OptsAppend(y[..k], [e]);
      OptsAppend(y[..k], y[k + 1..]);
    }
  }

  /** After any rearrangement of the tagged options, the shown texts are a permutation of
      the question's options, and when `a` is a valid answer index the position found for
      tag `a` shows exactly the text of option `a`. */
  lemma ShuffledRoundIsCorrect(o: seq<string>, s: seq<Tagged>, a: int)
    requires multiset(s) == multiset(Tag(o))
    requires 0 <= a < |o|
    ensures multiset(Opts(s)) == multiset(o)
    ensures 0 <= FindIdx(s, a) < |s|
    ensures Opts(s)[FindIdx(s, a)] == o[a]
  {
    OptsPreservesMultiset(s, Tag(o));
    assert Opts(Tag(o)) == o;
    assert Tag(o)[a] in multiset(s);
    var k := FindIdx(s, a);
    assert s[k] in multiset(Tag(o));
    var i :| 0 <= i < |o| && Tag(o)[i] == s[k];
  }
}
