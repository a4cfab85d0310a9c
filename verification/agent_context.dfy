/**
 The context packer of the carbon-accounting retrieval system: given the page
 contents of the retrieved documents, in retrieval order, and a character
 budget, it builds the context string that is handed to the AI agents.

 Each document becomes a labelled part `"[Source i]: " + content + "\n"`,
 numbered from 1. Parts are kept greedily while the running total of their
 lengths stays within the budget; the first part that does not fit ends the
 scan. The kept parts are joined with "\n". An empty retrieval yields a fixed
 fallback message instead.
 */
module AgentContext {
  import opened Decimal
  import opened Joining
  import opened GreedyPrefix

  /** Returned when retrieval produced no documents. */
  const NoContextMessage: string := "No relevant context found in knowledge base."

  /** The budget used when the caller gives none. */
  const DefaultMaxLength: int := 2000

  /** What the kept parts are joined with. */
  const Separator: char := '\n'

  /** The labelled text of the document numbered `i` (1-based). */
  function SourcePart(i: nat, content: string): (p: string)
    ensures |p| > |content| + 12
  {
    "[Source " + NatToString(i) + "]: " + content + "\n"
  }

  /** The labelled parts of all documents, numbered from 1 in retrieval order. */
  function Parts(docs: seq<string>): (ps: seq<string>)
    ensures |ps| == |docs|
  {
    if |docs| == 0 then []
    else Parts(docs[..|docs| - 1]) + [SourcePart(|docs|, docs[|docs| - 1])]
  }

  /** Part `k` (0-based) is the labelled text of document `k`, numbered `k + 1`. */
  lemma {:induction false} PartsAt(docs: seq<string>, k: nat)
    requires k < |docs|
    ensures Parts(docs)[k] == SourcePart(k + 1, docs[k])
    decreases |docs|
  {
    if k < |docs| - 1 {
      PartsAt(docs[..|docs| - 1], k);
    }
  }

  /**
   The parts the loop keeps (`context_parts`): the labelled parts of a prefix
   of the documents, within budget unless none is kept, and maximal.
   */
  function Pack(docs: seq<string>, maxLength: int): (kept: seq<string>)
    ensures |kept| <= |docs|
    ensures kept == Parts(docs)[..|kept|]
    ensures SumLengths(kept) <= maxLength || kept == []
    ensures |kept| < |docs| ==> SumLengths(kept) + |SourcePart(|kept| + 1, docs[|kept|])| > maxLength
  {
    var kept := Take(Parts(docs), maxLength);
    if |kept| < |docs| then
      PartsAt(docs, |kept|);
      kept
    else
      kept
  }

  /** The `k`-th kept part (0-based) is the labelled text of document `k`, numbered `k + 1`. */
  lemma PackAt(docs: seq<string>, maxLength: int, k: nat)
    requires k < |Pack(docs, maxLength)|
    ensures Pack(docs, maxLength)[k] == SourcePart(k + 1, docs[k])
  {
    PartsAt(docs, k);
  }

  /**
   The context string handed to the agents. Its length is the kept parts'
   total plus one separator between each pair of neighbours, so it can
   exceed `maxLength` by up to (number of kept parts - 1).
   */
  function ContextForAgent(docs: seq<string>, maxLength: int): (r: string)
    ensures |docs| == 0 ==> r == NoContextMessage
    ensures |docs| > 0 && |SourcePart(1, docs[0])| > maxLength ==> r == ""
    ensures |docs| > 0 && Pack(docs, maxLength) != [] ==>
              |r| == SumLengths(Pack(docs, maxLength)) + |Pack(docs, maxLength)| - 1
              && |r| <= maxLength + |Pack(docs, maxLength)| - 1
  {
    if |docs| == 0 then NoContextMessage
    else
      PartsAt(docs, 0);
      Join(Pack(docs, maxLength), Separator)
  }

  /**
   The packing loop, step by step: build the labelled part, stop at the
   first one that would overflow the budget, otherwise keep it and add its
   length to the running total; finally join the kept parts.
   */
  method GetContextForAgent(docs: seq<string>, maxLength: int) returns (context: string)
    ensures context == ContextForAgent(docs, maxLength)
  {
    if |docs| == 0 {
      return NoContextMessage;
    }
    var ps := Parts(docs);
    var contextParts: seq<string> := [];
    var currentLength := 0;
    var k := 0;
    while k < |docs|
      invariant k <= |docs|
      invariant contextParts == ps[..k]
      invariant currentLength == SumLengths(contextParts)
      invariant currentLength <= maxLength || k == 0
      invariant FitFrom(ps, maxLength, k, currentLength) == FitCount(ps, maxLength)
    {
      var docText := SourcePart(k + 1, docs[k]);
      PartsAt(docs, k);
      if currentLength + |docText| > maxLength {
        break;
      }
      assert ps[..k + 1] == contextParts + [docText];
      SumLengthsAppend(contextParts, docText);
      contextParts := contextParts + [docText];
      currentLength := currentLength + |docText|;
      k := k + 1;
    }
    assert contextParts == Take(ps, maxLength);
    context := Join(contextParts, Separator);
  }

  /** A non-empty retrieval never produces the fallback message. */
  lemma ContextNotFallback(docs: seq<string>, maxLength: int)
    requires |docs| > 0
    ensures ContextForAgent(docs, maxLength) != NoContextMessage
  {
    var kept := Pack(docs, maxLength);
    var r := ContextForAgent(docs, maxLength);
    if kept != [] {
      assert kept[..0] == [];
      PackAt(docs, maxLength, 0);
      JoinPartAt(kept, Separator, 0);
      assert r[0] == kept[0][0] == '[';
      assert NoContextMessage[0] == 'N';
    }
  }

  /**
   A budget smaller than any labelled part (in particular zero or a negative
   one) keeps nothing: the result is the empty string, not the fallback.
   */
  lemma SmallBudgetGivesEmpty(docs: seq<string>, maxLength: int)
    requires |docs| > 0 && maxLength <= 12
    ensures ContextForAgent(docs, maxLength) == ""
  {
  }

  /**
   Under the default budget, a first document of up to 1987 characters is
   kept whole: its labelled part, 13 characters longer, fits in 2000.
   */
  lemma DefaultBudgetKeepsFirst(docs: seq<string>)
    requires |docs| > 0 && |docs[0]| <= DefaultMaxLength - 13
    ensures Pack(docs, DefaultMaxLength) != []
    ensures Pack(docs, DefaultMaxLength)[0] == SourcePart(1, docs[0])
  {
    PartsAt(docs, 0);
    assert |NatToString(1)| == 1;
    assert |SourcePart(1, docs[0])| == |docs[0]| + 13;
  }

  /** Where the labelled part of document `k` (0-based) starts in the context. */
  lemma PartOffset(docs: seq<string>, maxLength: int, k: nat)
    requires k < |Pack(docs, maxLength)|
    ensures Offset(Pack(docs, maxLength), k) == PrefixLength(Parts(docs), k) + k
  {
    var kept := Pack(docs, maxLength);
    assert kept[..k] == Parts(docs)[..k];
    PrefixLengthIsSum(Parts(docs), k);
  }

  /**
   Layout of a non-empty context string: kept part `k` (0-based) stands,
   unchanged, at `Offset(Pack(docs, maxLength), k)`, which `PartOffset`
   computes; `PackAt` says which labelled document it is.
   */
  lemma ContextPartAt(docs: seq<string>, maxLength: int, k: nat)
    requires k < |Pack(docs, maxLength)|
    ensures Offset(Pack(docs, maxLength), k) + |Pack(docs, maxLength)[k]| <= |ContextForAgent(docs, maxLength)|
    ensures ContextForAgent(docs, maxLength)[Offset(Pack(docs, maxLength), k)..Offset(Pack(docs, maxLength), k) + |Pack(docs, maxLength)[k]|]
            == Pack(docs, maxLength)[k]
  {
    var kept := Pack(docs, maxLength);
    assert ContextForAgent(docs, maxLength) == Join(kept, Separator);
    JoinPartAt(kept, Separator, k);
  }

  /** A single "\n" stands just before every kept part after the first. */
  lemma ContextSeparatorAt(docs: seq<string>, maxLength: int, k: nat)
    requires 1 <= k < |Pack(docs, maxLength)|
    ensures 1 <= Offset(Pack(docs, maxLength), k) <= |ContextForAgent(docs, maxLength)|
    ensures ContextForAgent(docs, maxLength)[Offset(Pack(docs, maxLength), k) - 1] == '\n'
  {
    var kept := Pack(docs, maxLength);
    assert ContextForAgent(docs, maxLength) == Join(kept, Separator);
    JoinSeparatorAt(kept, Separator, k);
  }

  /**
   When the labelled parts of all documents fit in the budget together,
   every document is kept, in retrieval order, each exactly once.
   */
  lemma {:induction false} AllFitKeepsAll(docs: seq<string>, maxLength: int)
    requires PrefixLength(Parts(docs), |docs|) <= maxLength
    ensures Pack(docs, maxLength) == Parts(docs)
  {
    AllFitTakesAll(Parts(docs), maxLength);
  }

  /**
   The budget bounds the parts, not the joined string: two documents whose
   parts fill the budget exactly give a context one character longer.
   */
  lemma ContextCanExceedBudget()
    ensures |ContextForAgent(["a", "b"], 28)| == 29
  {
  }

  /** A digit string is delimited by the "]" that follows it. */
  lemma NumeralBeforeBracket(a: string, b: string, x: string, y: string)
    requires AllDigits(a) && AllDigits(b)
    requires "[Source " + a + "]: " + x + "\n" == "[Source " + b + "]: " + y + "\n"
    ensures a == b
  {
    var p := "[Source " + a + "]: " + x + "\n";
    var q := "[Source " + b + "]: " + y + "\n";
    assert p[8..] == a + ("]: " + x + "\n");
    assert q[8..] == b + ("]: " + y + "\n");
    LeadingDigitsOf(a, "]: " + x + "\n");
    LeadingDigitsOf(b, "]: " + y + "\n");
    assert a == p[8..8 + |a|];
    assert b == q[8..8 + |b|];
  }

  /**
   A labelled part determines its document number and its content: labels
   are unambiguous even when the content itself contains "]: " or digits.
   */
  lemma SourcePartInjective(i: nat, c: string, j: nat, d: string)
    ensures SourcePart(i, c) == SourcePart(j, d) <==> i == j && c == d
  {
    if SourcePart(i, c) == SourcePart(j, d) {
      var p := SourcePart(i, c);
      var a := NatToString(i);
      var b := NatToString(j);
      assert p == "[Source " + a + "]: " + c + "\n";
      assert p == "[Source " + b + "]: " + d + "\n";
      NumeralBeforeBracket(a, b, c, d);
      NatToStringInjective(i, j);
      assert c == p[11 + |a|..|p| - 1] == d;
    }
  }
}
