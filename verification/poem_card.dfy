/** The display rules of the poem card: how the poem's lines are laid out
    in stanzas, the escalating label of the evasive "No" button, and the
    card's title. */
module PoemCard {
  import opened Wrappers
  import opened JsText

  /** What the card renders for the lines: each line's text, a line break,
      and a stanza gap after every fourth line. */
  datatype Node = Line(text: string) | Break | StanzaGap

  /** The nodes one line renders to, given its index. */
  function LineNodes(line: string, index: nat): seq<Node>
  {
    [Line(line), Break] + (if (index + 1) % 4 == 0 then [StanzaGap] else [])
  }

  /** `renderContent`: the nodes of all lines, in order. */
  function Render(lines: seq<string>): (r: seq<Node>)
    ensures |r| == Offset(|lines|)
    decreases |lines|
  {
    if lines == [] then []
    else
      var n := |lines|;
      LineNodesContents(lines[n - 1], n - 1);
      StanzaCountStep(n);
      Render(lines[..n - 1]) + LineNodes(lines[n - 1], n - 1)
  }

  /** Where line `i` starts: two nodes per earlier line and one per earlier
      stanza gap. */
  function Offset(i: nat): nat
  {
    2 * i + i / 4
  }

  /** The texts of the rendered nodes, in order. */
  function Texts(nodes: seq<Node>): seq<string>
    decreases |nodes|
  {
    if nodes == [] then []
    else Texts(nodes[..|nodes| - 1]) + (if nodes[|nodes| - 1].Line? then [nodes[|nodes| - 1].text] else [])
  }

  /** The number of stanza gaps among the nodes. */
  function Gaps(nodes: seq<Node>): nat
    decreases |nodes|
  {
    if nodes == [] then 0
    else Gaps(nodes[..|nodes| - 1]) + (if nodes[|nodes| - 1].StanzaGap? then 1 else 0)
  }

  lemma {:induction false} TextsAppend(a: seq<Node>, b: seq<Node>)
    ensures Texts(a + b) == Texts(a) + Texts(b)
    ensures Gaps(a + b) == Gaps(a) + Gaps(b)
    decreases |b|
  {
    if b == [] {
      assert a + b == a;
    } else {
      var b' := b[..|b| - 1];
      assert (a + b)[..|a + b| - 1] == a + b';
      TextsAppend(a, b');
    }
  }

  /** One line renders its own text once, and a stanza gap exactly after
      every fourth line. */
  lemma LineNodesContents(line: string, index: nat)
    ensures Texts(LineNodes(line, index)) == [line]
    ensures Gaps(LineNodes(line, index)) == if (index + 1) % 4 == 0 then 1 else 0
    ensures |LineNodes(line, index)| == if (index + 1) % 4 == 0 then 3 else 2
  {
    var nodes := LineNodes(line, index);
    assert Texts([Line(line)]) == [line];
    assert Gaps([Line(line)]) == 0;
    TextsAppend([Line(line)], nodes[1..]);
    assert nodes == [Line(line)] + nodes[1..];
    if (index + 1) % 4 == 0 {
      TextsAppend([Break], [StanzaGap]);
      assert nodes[1..] == [Break] + [StanzaGap];
    } else {
      assert nodes[1..] == [Break];
    }
  }

  /** The stanza count grows by one exactly at every fourth line. */
  lemma StanzaCountStep(n: nat)
    requires n >= 1
    ensures n / 4 == (n - 1) / 4 + (if n % 4 == 0 then 1 else 0)
    ensures Offset(n) == Offset(n - 1) + (if n % 4 == 0 then 3 else 2)
  {
  }

  /** All lines are rendered, in their order, and `n` lines get `n / 4`
      stanza gaps. */
  lemma {:induction false} RenderKeepsLines(lines: seq<string>)
    ensures Texts(Render(lines)) == lines
    ensures Gaps(Render(lines)) == |lines| / 4
    ensures |Render(lines)| == Offset(|lines|)
    decreases |lines|
  {
    if lines != [] {
      var n := |lines|;
      var init := lines[..n - 1];
      var front := Render(init);
      var last := LineNodes(lines[n - 1], n - 1);
      assert Render(lines) == front + last;
      RenderKeepsLines(init);
      TextsAppend(front, last);
      LineNodesContents(lines[n - 1], n - 1);
      StanzaCountStep(n);
      var step := if n % 4 == 0 then 1 else 0;
      assert Gaps(front + last) == (n - 1) / 4 + step;
      assert |front + last| == Offset(n - 1) + |last|;
      assert init + [lines[n - 1]] == lines;
    }
  }

  /** Line `i` sits at its offset followed by a break, and a stanza gap
      follows that break exactly when `i + 1` is a multiple of four. */
  lemma {:induction false} RenderLayout(lines: seq<string>, i: nat)
    requires i < |lines|
    ensures Offset(i) + 1 < |Render(lines)|
    ensures Render(lines)[Offset(i)] == Line(lines[i])
    ensures Render(lines)[Offset(i) + 1] == Break
    ensures (Offset(i) + 2 < |Render(lines)| && Render(lines)[Offset(i) + 2] == StanzaGap)
            <==> (i + 1) % 4 == 0
    decreases |lines|
  {
    var n := |lines|;
    var init := lines[..n - 1];
    var tail := LineNodes(lines[n - 1], n - 1);
    RenderKeepsLines(init);
    RenderKeepsLines(lines);
    assert Render(lines) == Render(init) + tail;
    if i == n - 1 {
      assert Offset(i) == |Render(init)|;
    } else {
      RenderLayout(init, i);
      assert Offset(i) + 2 <= |Render(init)| by {
        assert Offset(i + 1) <= Offset(n - 1);
      }
      if Offset(i) + 2 == |Render(init)| {
        assert Render(lines)[Offset(i) + 2] == Line(lines[n - 1]);
        assert (i + 1) % 4 != 0 by {
          assert Offset(i + 1) == Offset(i) + 2;
        }
      }
    }
  }

  /** The label of the "No" button as it runs away more often. */
  function NoLabel(runCount: int): (r: string)
    ensures r == "No" <==> runCount == 0
  {
    if runCount == 0 then "No"
    else if runCount < 3 then "Are you sure?"
    else if runCount < 5 then "Really sure? \U{1F622}"
    else if runCount < 8 then "Please?"
    else "Okay I'm fast! \U{1F3C3}\U{200D}\U{2642}\U{FE0F}"
  }

  /** The five labels in the order they appear. */
  const Labels: seq<string> := [
    "No", "Are you sure?", "Really sure? \U{1F622}", "Please?",
    "Okay I'm fast! \U{1F3C3}\U{200D}\U{2642}\U{FE0F}"]

  /** Which of the five labels a number of escapes earns: 0 for none, then
      1-2, 3-4, 5-7, and 8 or more. */
  function Tier(runCount: nat): (t: nat)
    ensures t < 5
    ensures t == 0 <==> runCount == 0
    ensures t == 1 <==> 1 <= runCount <= 2
    ensures t == 2 <==> 3 <= runCount <= 4
    ensures t == 3 <==> 5 <= runCount <= 7
    ensures t == 4 <==> runCount >= 8
  {
    if runCount == 0 then 0
    else if runCount <= 2 then 1
    else if runCount <= 4 then 2
    else if runCount <= 7 then 3
    else 4
  }

  /** The label is the one of its tier, and a later escape never shows an
      earlier label. */
  lemma NoLabelTiers(a: nat, b: nat)
    ensures NoLabel(a) == Labels[Tier(a)]
    ensures a <= b ==> Tier(a) <= Tier(b)
  {
  }

  /** The five labels are all different, so the tier can be read off the
      label. */
  lemma LabelsDistinct()
    ensures forall i, j | 0 <= i < j < |Labels| :: Labels[i] != Labels[j]
  {
    assert |Labels[0]| == 2 && |Labels[3]| == 7;
    assert |Labels[1]| == 13 && |Labels[2]| == 14 && |Labels[4]| == 19;
  }

  /** The button leaves the layout flow once it has run away. */
  predicate NoButtonAbsolute(runCount: int)
  {
    runCount > 0
  }

  /** The button leaves the layout flow exactly when its label is no longer
      the plain "No". */
  lemma AbsoluteIffLabelChanged(runCount: nat)
    ensures NoButtonAbsolute(runCount) <==> NoLabel(runCount) != "No"
  {
    if runCount > 0 {
      NoLabelTiers(runCount, runCount);
      LabelsDistinct();
    }
  }

  /** The title line: the poem's own title, or "Your Poem" when it has
      none or it is empty. */
  function DisplayTitle(title: Option<string>): (r: string)
    ensures Truthy(r)
    ensures title.Some? && Truthy(title.value) ==> r == title.value
    ensures !(title.Some? && Truthy(title.value)) ==> r == "Your Poem"
  {
    if title.Some? && title.value != "" then title.value else "Your Poem"
  }
}
