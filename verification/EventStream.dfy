/** The writing loop of one event stream (internal/server/stream.go): which revisions it writes out
    of those that its channel delivers. */
module EventStream {
  import opened Sequences

  /** What the loop's select delivers; the channel itself is part of `RevisionHub`. */
  datatype Input = Update(revision: int) | ChannelClosed | Keepalive | ClientGone

  function Updates(inputs: seq<Input>): seq<int> {
    if inputs == [] then []
    else Updates(inputs[..|inputs| - 1]) + if inputs[|inputs| - 1].Update? then [inputs[|inputs| - 1].revision] else []
  }

  /** The values that are larger than everything before them. */
  function Maxima(s: seq<int>): seq<int> {
    if s == [] then []
    else
      var before, last := Maxima(s[..|s| - 1]), s[|s| - 1];
      if before == [] || last > before[|before| - 1] then before + [last] else before
  }

  /** They strictly increase, occur in the list, and the last of them is the list's maximum. */
  lemma {:induction false} MaximaLaws(s: seq<int>)
    ensures forall i, j :: 0 <= i < j < |Maxima(s)| ==> Maxima(s)[i] < Maxima(s)[j]
    ensures forall x :: x in Maxima(s) ==> x in s
    ensures s != [] ==> Maxima(s) != [] && Maxima(s)[0] == s[0]
    ensures s != [] ==> forall x :: x in s ==> x <= Maxima(s)[|Maxima(s)| - 1]
    decreases |s|
  {
    if s != [] {
      var front, last := s[..|s| - 1], s[|s| - 1];
      assert s == front + [last];
      MaximaLaws(front);
      if |front| > 0 { assert front[0] == s[0]; }
    }
  }

  /** A revision that is larger than everything before it is among them, so it is not skipped. */
  lemma {:induction false} NewMaximumIsKept(s: seq<int>, i: nat)
    requires i < |s| && forall j :: 0 <= j < i ==> s[j] < s[i]
    ensures s[i] in Maxima(s)
    decreases |s|
  {
    var front, last := s[..|s| - 1], s[|s| - 1];
    if i < |s| - 1 {
      assert forall j :: 0 <= j < i ==> front[j] < front[i];
      NewMaximumIsKept(front, i);
    } else {
      MaximaLaws(front);
      if front != [] {
        var m := Maxima(front)[|Maxima(front)| - 1];
        assert m in Maxima(front);
        var j :| 0 <= j < |front| && front[j] == m;
        assert s[j] == m;
      }
    }
  }

  predicate Ends(input: Input) {
    input.ChannelClosed? || input.ClientGone?
  }

  /** serve: writes the revision read first and then every delivered revision that is newer than all
      written before. `writable(i)` says whether a write at input i would succeed, and -1 stands for
      the first write. It stops after `n` inputs because there are no more, because input n ends the
      stream, or because the write it asks for fails. */
  method Serve(first: int, inputs: seq<Input>, writable: int -> bool) returns (sent: seq<int>, n: nat)
    ensures !writable(-1) ==> sent == [] && n == 0
    ensures writable(-1) ==> n <= |inputs| && sent == Maxima([first] + Updates(inputs[..n]))
    ensures writable(-1) && n < |inputs| ==>
      Ends(inputs[n]) || (!writable(n) && (inputs[n].Update? ==> inputs[n].revision > sent[|sent| - 1]))
    ensures writable(-1) ==> forall i :: 0 <= i < n ==> !Ends(inputs[i])
  {
    hide Maxima, Updates;
    if !writable(-1) { return [], 0; }
    sent := [first];
    var lastSent := first;
    n := 0;
    OnlyTheFirst(first, inputs);
    while n < |inputs|
      invariant n <= |inputs| && sent == Maxima([first] + Updates(inputs[..n]))
      invariant sent != [] && lastSent == sent[|sent| - 1]
      invariant forall i :: 0 <= i < n ==> !Ends(inputs[i])
      decreases |inputs| - n
    {
      MaximaStep(first, inputs, n);
      match inputs[n] {
        case ClientGone => return;
        case ChannelClosed => return;
        case Update(revision) =>
          if revision > lastSent {
            if !writable(n) { return; }
            sent := sent + [revision];
            lastSent := revision;
          }
        case Keepalive =>
          if !writable(n) { return; }
      }
      n := n + 1;
    }
  }

  lemma UpdatesSnoc(s: seq<Input>, x: Input)
    ensures Updates(s + [x]) == Updates(s) + if x.Update? then [x.revision] else []
  {
    assert (s + [x])[..|s|] == s;
  }

  lemma MaximaSnoc(s: seq<int>, v: int)
    ensures Maxima(s + [v]) == if Maxima(s) == [] || v > Maxima(s)[|Maxima(s)| - 1] then Maxima(s) + [v] else Maxima(s)
  {
    assert (s + [v])[..|s|] == s;
  }

  lemma OnlyTheFirst(first: int, inputs: seq<Input>)
    ensures Maxima([first] + Updates(inputs[..0])) == [first]
  {
    assert Updates([]) == [] && Maxima([]) == [];
    hide Maxima, Updates;
    MaximaSnoc([], first);
    assert [] + [first] == [first] && inputs[..0] == [] && [first] + [] == [first];
  }

  lemma MaximaStep(first: int, inputs: seq<Input>, n: nat)
    requires n < |inputs|
    ensures var now := Maxima([first] + Updates(inputs[..n]));
            Maxima([first] + Updates(inputs[..n + 1])) ==
              if inputs[n].Update? && (now == [] || inputs[n].revision > now[|now| - 1]) then now + [inputs[n].revision]
              else now
  {
    hide Maxima, Updates;
    assert inputs[..n + 1] == inputs[..n] + [inputs[n]];
    UpdatesSnoc(inputs[..n], inputs[n]);
    if inputs[n].Update? {
      Regroup([first], Updates(inputs[..n]), [inputs[n].revision]);
      MaximaSnoc([first] + Updates(inputs[..n]), inputs[n].revision);
    } else {
      Regroup(Updates(inputs[..n]), [], []);
    }
  }
}
