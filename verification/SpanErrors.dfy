/** Recording exceptions on a trace span: the worst one so far under fixed names, and
    every one under its own number. */
module SpanErrors {
  import opened Outcomes

  datatype Level = Info | Warn | Critical

  /** RankedErrorLevel.indexOf; a level that is not set has rank -1. */
  function Rank(level: Option<Level>): int {
    match level
    case None => -1
    case Some(Info) => 0
    case Some(Warn) => 1
    case Some(Critical) => 2
  }

  /** A level that is not set is below all others, and they rise with severity. */
  lemma RankOrdered()
    ensures Rank(None) < Rank(Some(Info)) < Rank(Some(Warn)) < Rank(Some(Critical))
  {
  }

  datatype Exception = Exception(name: string, message: string, level: Option<Level>)

  /** The names of the attributes: error.level, error.0.level and so on. */
  datatype Key =
    | ErrorLevel
    | ErrorName
    | ErrorMessage
    | NumberedLevel(n: nat)
    | NumberedName(n: nat)
    | NumberedMessage(n: nat)

  datatype Value = LevelValue(level: Level) | TextValue(text: string)

  type Attributes = map<Key, Value>

  /** An exception at the level it was recorded with. */
  datatype Recorded = Recorded(name: string, message: string, level: Level)

  function EffectiveLevel(e: Exception, level: Option<Level>): Level {
    if level.Some? then level.value else if e.level.Some? then e.level.value else Warn
  }

  function SpanLevel(attributes: Attributes): Option<Level> {
    if ErrorLevel in attributes && attributes[ErrorLevel].LevelValue? then Some(attributes[ErrorLevel].level) else None
  }

  /** The latest of the exceptions at the highest level. */
  ghost predicate IsLatestWorst(history: seq<Recorded>, k: nat) {
    && k < |history|
    && (forall i :: 0 <= i < |history| ==> Rank(Some(history[i].level)) <= Rank(Some(history[k].level)))
    && (forall i :: k < i < |history| ==> Rank(Some(history[i].level)) < Rank(Some(history[k].level)))
  }

  /** The fixed attributes show the latest of the worst exceptions. */
  ghost predicate ShowsWorst(a: Attributes, history: seq<Recorded>) {
    if history == [] then ErrorLevel !in a
    else exists k: nat ::
      && IsLatestWorst(history, k)
      && ErrorLevel in a && a[ErrorLevel] == LevelValue(history[k].level)
      && ErrorName in a && a[ErrorName] == TextValue(history[k].name)
      && ErrorMessage in a && a[ErrorMessage] == TextValue(history[k].message)
  }

  /** The numbered attributes list all exceptions, in order and without gaps. */
  ghost predicate ListsAll(a: Attributes, history: seq<Recorded>) {
    && (forall n: nat :: NumberedLevel(n) in a <==> n < |history|)
    && (forall n: nat :: n < |history| ==>
          && a[NumberedLevel(n)] == LevelValue(history[n].level)
          && NumberedName(n) in a && a[NumberedName(n)] == TextValue(history[n].name)
          && NumberedMessage(n) in a && a[NumberedMessage(n)] == TextValue(history[n].message))
  }

  /** The latest worst exception is unique, so the attributes determine it. */
  lemma LatestWorstUnique(history: seq<Recorded>, k: nat, k': nat)
    requires IsLatestWorst(history, k) && IsLatestWorst(history, k')
    ensures k == k'
  {
    assert Rank(Some(history[k].level)) == Rank(Some(history[k'].level));
  }

  /** A new exception takes over exactly when no earlier one is strictly worse. */
  lemma NewWorst(history: seq<Recorded>, e: Recorded, k: nat)
    requires IsLatestWorst(history, k)
    ensures IsLatestWorst(history + [e], if Rank(Some(e.level)) >= Rank(Some(history[k].level)) then |history| else k)
  {
    var longer := history + [e];
    assert forall i :: 0 <= i < |history| ==> longer[i] == history[i];
  }

  /** Writing the fixed attributes. */
  function WithWorst(a: Attributes, r: Recorded): Attributes {
    a[ErrorLevel := LevelValue(r.level)][ErrorName := TextValue(r.name)][ErrorMessage := TextValue(r.message)]
  }

  /** Writing the attributes of one number. */
  function WithNumbered(a: Attributes, n: nat, r: Recorded): Attributes {
    var named := a[NumberedLevel(n) := LevelValue(r.level)][NumberedName(n) := TextValue(r.name)];
    named[NumberedMessage(n) := TextValue(r.message)]
  }

  lemma WorstUpdated(a: Attributes, history: seq<Recorded>, r: Recorded)
    requires ShowsWorst(a, history)
    ensures ShowsWorst(if Rank(Some(r.level)) >= Rank(SpanLevel(a)) then WithWorst(a, r) else a, history + [r])
  {
    var a' := if Rank(Some(r.level)) >= Rank(SpanLevel(a)) then WithWorst(a, r) else a;
    var longer := history + [r];
    if history == [] {
      assert IsLatestWorst(longer, 0);
    } else {
      var k: nat :|
        && IsLatestWorst(history, k)
        && ErrorLevel in a && a[ErrorLevel] == LevelValue(history[k].level)
        && ErrorName in a && a[ErrorName] == TextValue(history[k].name)
        && ErrorMessage in a && a[ErrorMessage] == TextValue(history[k].message);
      NewWorst(history, r, k);
      assert longer[k] == history[k] && longer[|history|] == r;
    }
  }

  lemma NumberedKeepsWorst(a: Attributes, history: seq<Recorded>, n: nat, r: Recorded)
    requires ShowsWorst(a, history)
    ensures ShowsWorst(WithNumbered(a, n, r), history)
  {
  }

  lemma NumberedListsNext(a: Attributes, history: seq<Recorded>, r: Recorded)
    requires ListsAll(a, history)
    ensures ListsAll(WithNumbered(a, |history|, r), history + [r])
  {
  }

  /** So the fixed level is the highest that was recorded. */
  lemma ShownLevelIsHighest(a: Attributes, history: seq<Recorded>)
    requires ShowsWorst(a, history) && history != []
    ensures ErrorLevel in a && a[ErrorLevel].LevelValue?
    ensures var shown := a[ErrorLevel].level;
            && (shown == Critical <==> exists i :: 0 <= i < |history| && history[i].level == Critical)
            && (shown == Info <==> forall i :: 0 <= i < |history| ==> history[i].level == Info)
  {
    var k: nat :|
      && IsLatestWorst(history, k)
      && ErrorLevel in a && a[ErrorLevel] == LevelValue(history[k].level)
      && ErrorName in a && a[ErrorName] == TextValue(history[k].name)
      && ErrorMessage in a && a[ErrorMessage] == TextValue(history[k].message);
    assert history[k].level == a[ErrorLevel].level;
  }

  class Span {
    var attributes: Attributes
    ghost var history: seq<Recorded>

    ghost predicate Valid()
      reads this
    {
      ShowsWorst(attributes, history) && ListsAll(attributes, history)
    }

    constructor ()
      ensures Valid() && history == []
    {
      attributes := map[];
      history := [];
    }

    /** Whatever has been recorded before, the span then shows and lists this exception
        after all earlier ones. */
    method RecordException(e: Exception, level: Option<Level>)
      requires Valid()
      modifies this
      ensures Valid()
      ensures && |history| == |old(history)| + 1 && history[..|old(history)|] == old(history)
              && var r := history[|old(history)|];
                 && r.name == e.name && r.message == e.message
                 && (level.Some? ==> r.level == level.value)
                 && (level.None? && e.level.Some? ==> r.level == e.level.value)
                 && (level.None? && e.level.None? ==> r.level == Warn)
    {
      var r := Recorded(e.name, e.message, EffectiveLevel(e, level));
      WorstUpdated(attributes, history, r);
      if Rank(Some(r.level)) >= Rank(SpanLevel(attributes)) {
        attributes := WithWorst(attributes, r);
      }
      assert ListsAll(attributes, history);
      var nextIdx := 0;
      while NumberedLevel(nextIdx) in attributes
        invariant nextIdx <= |history|
        decreases |history| - nextIdx
      {
        nextIdx := nextIdx + 1;
      }
      assert nextIdx == |history|;
      NumberedKeepsWorst(attributes, history + [r], nextIdx, r);
      NumberedListsNext(attributes, history, r);
      attributes := WithNumbered(attributes, nextIdx, r);
      history := history + [r];
    }
  }
}
