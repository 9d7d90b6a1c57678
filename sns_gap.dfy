/**
 * The SNS expectation/satisfaction diary (the root application): a record is an SNS type
 * with an expectation and a satisfaction rating taken before and after using it; the gap is
 * expectation minus satisfaction. Records are appended to a list, and once three exist a
 * list of insights is derived from the gaps: an overall verdict, a high-disappointment
 * warning, the worst SNS type and a recent trend. Averages are exact rationals here.
 */
module SnsGap {
  import opened Wrappers

  /** `currentRecord` and the stored records; an unset rating or timestamp is `null`. */
  datatype Record = Record(snsType: string, expectation: Option<int>, satisfaction: Option<int>, timestamp: Option<string>)

  /** A draft with nothing rated yet, for the SNS type currently selected. */
  function Draft(snsType: string): Record { Record(snsType, None, None, None) }

  /** JavaScript arithmetic and comparisons read `null` as 0. */
  function Num(v: Option<int>): int
  {
    match v
    case None => 0
    case Some(x) => x
  }

  /** expectation − satisfaction. */
  function Gap(r: Record): int { Num(r.expectation) - Num(r.satisfaction) }

  // ---------------------------------------------------------------------------
  // The gap's sign

  /** The history's colour class: positive, negative or neutral. */
  datatype GapKind = Disappointed | BetterThanExpected | AsExpected

  function Classify(gap: int): GapKind
  {
    if gap > 0 then Disappointed else if gap < 0 then BetterThanExpected else AsExpected
  }

  /** The result message shown after saving: how many points below or above, or as expected. */
  datatype Verdict =
    | Below(expectation: Option<int>, satisfaction: Option<int>, points: nat)
    | Above(expectation: Option<int>, satisfaction: Option<int>, points: nat)
    | Met(rating: Option<int>)

  /** The message saveRecord builds from the saved record. */
  function VerdictOf(r: Record): (v: Verdict)
    ensures v.Below? ==> v.points == Gap(r) && v.points > 0
    ensures v.Above? ==> v.points == -Gap(r) && v.points > 0
    ensures v.Met? ==> Num(r.expectation) == Num(r.satisfaction)
  {
    var gap := Gap(r);
    if gap > 0 then Below(r.expectation, r.satisfaction, gap)
    else if gap < 0 then Above(r.expectation, r.satisfaction, -gap)
    else Met(r.expectation)
  }

  /**
   * The message after saving and the record's class in the history agree, and both are
   * decided by the sign of the gap alone.
   */
  lemma VerdictMatchesHistory(r: Record)
    ensures (VerdictOf(r).Below? <==> Gap(r) > 0) && (Classify(Gap(r)) == Disappointed <==> Gap(r) > 0)
    ensures (VerdictOf(r).Above? <==> Gap(r) < 0) && (Classify(Gap(r)) == BetterThanExpected <==> Gap(r) < 0)
    ensures (VerdictOf(r).Met? <==> Gap(r) == 0) && (Classify(Gap(r)) == AsExpected <==> Gap(r) == 0)
  {
  }

  /** The history lists the records newest first, each with its gap's class. */
  function History(rs: seq<Record>): seq<(GapKind, int)>
  {
    seq(|rs|, i requires 0 <= i < |rs| => (Classify(Gap(rs[|rs| - 1 - i])), Gap(rs[|rs| - 1 - i])))
  }

  /** A newly saved record heads the history; the older entries follow unchanged. */
  lemma HistoryNewestFirst(rs: seq<Record>, r: Record)
    ensures History([]) == []
    ensures History(rs + [r]) == [(Classify(Gap(r)), Gap(r))] + History(rs)
  {
    var h, h' := History(rs + [r]), [(Classify(Gap(r)), Gap(r))] + History(rs);
    assert |h| == |h'|;
    forall i | 0 <= i < |h|
      ensures h[i] == h'[i]
    {
      if i > 0 {
        assert (rs + [r])[|rs| - i] == rs[|rs| - 1 - (i - 1)];
      }
    }
  }

  // ---------------------------------------------------------------------------
  // Sums and means

  function Sum(xs: seq<int>): int
  {
    if xs == [] then 0 else Sum(xs[..|xs| - 1]) + xs[|xs| - 1]
  }

  /** `xs.reduce((a, b) => a + b, 0) / xs.length`. */
  function Mean(xs: seq<int>): real
    requires |xs| > 0
  {
    Sum(xs) as real / |xs| as real
  }

  /** The gaps of a list of records, in order. */
  function AllGaps(rs: seq<Record>): seq<int>
  {
    seq(|rs|, i requires 0 <= i < |rs| => Gap(rs[i]))
  }

  /** The gaps of two runs of records are the gaps of the first run followed by those of the second. */
  lemma AllGapsAppend(a: seq<Record>, b: seq<Record>)
    ensures AllGaps([]) == []
    ensures AllGaps(a + b) == AllGaps(a) + AllGaps(b)
  {
    assert |AllGaps(a + b)| == |AllGaps(a) + AllGaps(b)|;
    forall i | 0 <= i < |a + b|
      ensures AllGaps(a + b)[i] == (AllGaps(a) + AllGaps(b))[i]
    {
      if i >= |a| {
        assert (a + b)[i] == b[i - |a|];
      }
    }
  }

  /** The gaps of the records of one SNS type, in order. */
  function GapsOf(rs: seq<Record>, sns: string): seq<int>
  {
    if rs == [] then []
    else GapsOf(rs[..|rs| - 1], sns) + (if rs[|rs| - 1].snsType == sns then [Gap(rs[|rs| - 1])] else [])
  }

  /** When every record is of one SNS type, that type's gaps are all the gaps. */
  lemma {:induction false} OneTypeGapsAreAllGaps(rs: seq<Record>, sns: string)
    requires forall i :: 0 <= i < |rs| ==> rs[i].snsType == sns
    ensures GapsOf(rs, sns) == AllGaps(rs)
  {
    if rs != [] {
      var p := rs[..|rs| - 1];
      OneTypeGapsAreAllGaps(p, sns);
      AllGapsAppend(p, [rs[|rs| - 1]]);
      assert p + [rs[|rs| - 1]] == rs;
    }
  }

  /** The records whose expectation exceeds their satisfaction (`null` read as 0). */
  function CountDisappointed(rs: seq<Record>): (n: nat)
    ensures n <= |rs|
  {
    if rs == [] then 0
    else CountDisappointed(rs[..|rs| - 1]) + (if Gap(rs[|rs| - 1]) > 0 then 1 else 0)
  }

  // ---------------------------------------------------------------------------
  // The per-SNS tally (`snsCounts` / `snsGaps`)

  /** The SNS types in the order they first occur: the key order of `snsGaps`. */
  function FirstSeen(rs: seq<Record>): seq<string>
  {
    if rs == [] then []
    else
      var ks := FirstSeen(rs[..|rs| - 1]);
      var s := rs[|rs| - 1].snsType;
      if s in ks then ks else ks + [s]
  }

  /** `snsGaps` after the forEach: each type's gaps, appended one record at a time. */
  function GapTable(rs: seq<Record>): map<string, seq<int>>
  {
    if rs == [] then map[]
    else
      var t := GapTable(rs[..|rs| - 1]);
      var r := rs[|rs| - 1];
      t[r.snsType := (if r.snsType in t then t[r.snsType] else []) + [Gap(r)]]
  }

  predicate Distinct(ks: seq<string>) {
    forall i, j :: 0 <= i < j < |ks| ==> ks[i] != ks[j]
  }

  /** Every key has a non-empty list of gaps. */
  predicate Tabled(keys: seq<string>, table: map<string, seq<int>>) {
    forall k :: k in keys ==> k in table && |table[k]| > 0
  }

  /** The key order lists every SNS type that occurs, each once. */
  lemma {:induction false} FirstSeenOccurs(rs: seq<Record>)
    ensures forall k :: k in FirstSeen(rs) <==> exists i :: 0 <= i < |rs| && rs[i].snsType == k
    ensures Distinct(FirstSeen(rs))
  {
    if rs != [] {
      var p := rs[..|rs| - 1];
      FirstSeenOccurs(p);
      forall k | k in FirstSeen(rs)
        ensures exists i :: 0 <= i < |rs| && rs[i].snsType == k
      {
        if k in FirstSeen(p) {
          var i :| 0 <= i < |p| && p[i].snsType == k;
          assert rs[i] == p[i];
        } else {
          assert rs[|rs| - 1].snsType == k;
        }
      }
      forall k | exists i :: 0 <= i < |rs| && rs[i].snsType == k
        ensures k in FirstSeen(rs)
      {
        var i :| 0 <= i < |rs| && rs[i].snsType == k;
        if i < |p| {
          assert p[i] == rs[i];
        }
      }
    }
  }

  /** The gap table has the keys of the key order, each mapped to that type's gaps. */
  lemma {:induction false} GapTableHolds(rs: seq<Record>)
    ensures forall k :: k in GapTable(rs) <==> k in FirstSeen(rs)
    ensures forall k :: k in GapTable(rs) ==> GapTable(rs)[k] == GapsOf(rs, k) && |GapsOf(rs, k)| > 0
    ensures forall k :: k !in GapTable(rs) ==> GapsOf(rs, k) == []
  {
    if rs != [] {
      var p := rs[..|rs| - 1];
      var r := rs[|rs| - 1];
      GapTableHolds(p);
      forall k | k in GapTable(rs)
        ensures GapTable(rs)[k] == GapsOf(rs, k)
      {
        if k != r.snsType {
          assert GapsOf(rs, k) == GapsOf(p, k) + [];
        } else if k !in GapTable(p) {
          assert GapsOf(p, k) == [];
          assert GapsOf(rs, k) == [] + [Gap(r)];
        }
      }
      forall k | k !in GapTable(rs)
        ensures GapsOf(rs, k) == []
      {
        assert GapsOf(rs, k) == GapsOf(p, k) + [];
      }
    }
  }

  /**
   * What the tally holds: one key per SNS type that occurs, each once, in first-seen
   * order, mapped to exactly the gaps of that type's records in order.
   */
  lemma TallyMeaning(rs: seq<Record>)
    ensures forall k :: k in GapTable(rs) <==> k in FirstSeen(rs)
    ensures forall k :: k in FirstSeen(rs) <==> exists i :: 0 <= i < |rs| && rs[i].snsType == k
    ensures forall k :: k in GapTable(rs) ==> GapTable(rs)[k] == GapsOf(rs, k) && |GapsOf(rs, k)| > 0
    ensures forall k :: k !in GapTable(rs) ==> GapsOf(rs, k) == []
    ensures Distinct(FirstSeen(rs))
    ensures Tabled(FirstSeen(rs), GapTable(rs))
  {
    FirstSeenOccurs(rs);
    GapTableHolds(rs);
  }

  // ---------------------------------------------------------------------------
  // The worst SNS type (the `reduce` over `Object.keys(snsGaps)`)

  /**
   * The reduce with the intended test: a key replaces the current worst when there is no
   * worst yet or its mean gap is strictly larger.
   */
  function PickWorst(keys: seq<string>, table: map<string, seq<int>>): (w: Option<string>)
    requires Tabled(keys, table)
    ensures w.None? <==> keys == []
    ensures w.Some? ==> w.value in keys
  {
    if keys == [] then None
    else
      var w := PickWorst(keys[..|keys| - 1], table);
      var s := keys[|keys| - 1];
      if w.None? || Mean(table[s]) > Mean(table[w.value]) then Some(s) else w
  }

  /** The picked key has the largest mean gap, and no earlier key reaches it (earlier wins ties). */
  lemma {:induction false} PickWorstIsMax(keys: seq<string>, table: map<string, seq<int>>) returns (i: nat)
    requires Tabled(keys, table) && keys != []
    ensures i < |keys| && PickWorst(keys, table) == Some(keys[i])
    ensures forall j :: 0 <= j < |keys| ==> Mean(table[keys[j]]) <= Mean(table[keys[i]])
    ensures forall j :: 0 <= j < i ==> Mean(table[keys[j]]) < Mean(table[keys[i]])
  {
    var p := keys[..|keys| - 1];
    var s := keys[|keys| - 1];
    assert Tabled(p, table);
    if p == [] {
      i := 0;
    } else {
      var i' := PickWorstIsMax(p, table);
      assert keys[i'] == p[i'];
      if Mean(table[s]) > Mean(table[p[i']]) {
        i := |keys| - 1;
        forall j | 0 <= j < |keys|
          ensures Mean(table[keys[j]]) <= Mean(table[keys[i]])
        {
          if j < |p| { assert keys[j] == p[j]; }
        }
        forall j | 0 <= j < i
          ensures Mean(table[keys[j]]) < Mean(table[keys[i]])
        {
          assert keys[j] == p[j];
        }
      } else {
        i := i';
        forall j | 0 <= j < |keys|
          ensures Mean(table[keys[j]]) <= Mean(table[keys[i]])
        {
          if j < |p| { assert keys[j] == p[j]; }
        }
        forall j | 0 <= j < i
          ensures Mean(table[keys[j]]) < Mean(table[keys[i]])
        {
          assert keys[j] == p[j];
        }
      }
    }
  }

  /**
   * The reduce as the application writes it: `!worst` is also true when the current
   * worst is the empty SNS type (the type of a record saved before the selector was used),
   * so that key never holds its place and the next key replaces it whatever its mean.
   */
  function PickWorstAsWritten(keys: seq<string>, table: map<string, seq<int>>): (w: Option<string>)
    requires Tabled(keys, table)
    ensures w.None? <==> keys == []
    ensures w.Some? ==> w.value in keys
  {
    if keys == [] then None
    else
      var w := PickWorstAsWritten(keys[..|keys| - 1], table);
      var s := keys[|keys| - 1];
      if w.None? || w.value == "" || Mean(table[s]) > Mean(table[w.value]) then Some(s) else w
  }

  /** Types A (mean 2), "" (mean 3) and B (mean 0.6): the code names B, the largest mean is "". */
  lemma EmptyTypeLosesItsPlace()
    ensures var keys := ["A", "", "B"];
      var table := map["A" := [2, 2], "" := [3, 3], "B" := [1, 0, 1, 0, 1]];
      && Tabled(keys, table)
      && PickWorstAsWritten(keys, table) == Some("B")
      && PickWorst(keys, table) == Some("")
      && Mean(table["B"]) < Mean(table["A"]) < Mean(table[""])
  {
    var keys := ["A", "", "B"];
    var table := map["A" := [2, 2], "" := [3, 3], "B" := [1, 0, 1, 0, 1]];
    assert keys[..2] == ["A", ""] && keys[..2][..1] == ["A"] && keys[..1][..0] == [];
    assert Sum([2, 2]) == 4 by { assert [2, 2][..1] == [2]; assert [2][..0] == []; }
    assert Sum([3, 3]) == 6 by { assert [3, 3][..1] == [3]; assert [3][..0] == []; }
    assert Sum([1, 0, 1, 0, 1]) == 3 by {
      assert [1, 0, 1, 0, 1][..4] == [1, 0, 1, 0];
      assert [1, 0, 1, 0][..3] == [1, 0, 1];
      assert [1, 0, 1][..2] == [1, 0];
      assert [1, 0][..1] == [1];
      assert [1][..0] == [];
    }
  }

  /**
   * From keys on which both reduces hold the same worst key other than "", further keys
   * other than "" keep them in step.
   */
  lemma {:induction false} AsWrittenKeepsStep(p: seq<string>, r: seq<string>, table: map<string, seq<int>>)
    requires Tabled(p + r, table) && Tabled(p, table) && "" !in r
    requires PickWorstAsWritten(p, table) == PickWorst(p, table) && PickWorst(p, table) != Some("")
    ensures PickWorstAsWritten(p + r, table) == PickWorst(p + r, table) && PickWorst(p + r, table) != Some("")
    decreases |r|
  {
    if r == [] {
      assert p + r == p;
    } else {
      var r' := r[..|r| - 1];
      assert (p + r)[..|p + r| - 1] == p + r';
      assert (p + r)[|p + r| - 1] == r[|r| - 1];
      AsWrittenKeepsStep(p, r', table);
    }
  }

  /** Without the empty SNS type among the keys, the reduce as written picks the intended key. */
  lemma AsWrittenWithoutEmpty(keys: seq<string>, table: map<string, seq<int>>)
    requires Tabled(keys, table) && "" !in keys
    ensures PickWorstAsWritten(keys, table) == PickWorst(keys, table)
  {
    assert [] + keys == keys;
    AsWrittenKeepsStep([], keys, table);
  }

  /**
   * Once the reduce as written holds "", the next key takes its place whatever its mean,
   * and from there on it is the intended reduce over the keys that follow.
   */
  lemma {:induction false} AsWrittenAfterEmpty(p: seq<string>, r: seq<string>, table: map<string, seq<int>>)
    requires Tabled(p + r, table) && Tabled(p, table) && r != [] && "" !in r
    requires PickWorstAsWritten(p, table) == Some("")
    ensures Tabled(r, table) && PickWorstAsWritten(p + r, table) == PickWorst(r, table)
    decreases |r|
  {
    var r' := r[..|r| - 1];
    assert (p + r)[..|p + r| - 1] == p + r';
    assert (p + r)[|p + r| - 1] == r[|r| - 1];
    if r' == [] {
      assert p + r' == p;
    } else {
      AsWrittenAfterEmpty(p, r', table);
    }
  }

  /**
   * With the empty type between keys `l` and `r`: the reduce as written differs from the
   * intended one only when "" is the intended worst of `l + [""]` and keys follow it; it
   * then returns the intended worst of those later keys alone.
   */
  lemma AsWrittenWithEmpty(l: seq<string>, r: seq<string>, table: map<string, seq<int>>)
    requires Tabled(l + [""] + r, table) && "" !in l && "" !in r
    ensures Tabled(l + [""], table) && Tabled(r, table)
    ensures PickWorstAsWritten(l + [""] + r, table)
            == if PickWorst(l + [""], table) == Some("") && r != [] then PickWorst(r, table)
               else PickWorst(l + [""] + r, table)
  {
    var p := l + [""];
    assert Tabled(l, table);
    AsWrittenWithoutEmpty(l, table);
    assert p[..|p| - 1] == l;
    assert PickWorstAsWritten(p, table) == PickWorst(p, table);
    if PickWorst(p, table) == Some("") && r != [] {
      AsWrittenAfterEmpty(p, r, table);
    } else if r == [] {
      assert p + r == p;
    } else {
      AsWrittenKeepsStep(p, r, table);
    }
  }

  // ---------------------------------------------------------------------------
  // toFixed(2)

  /** `x.toFixed(2)` read back as a number: rounded to hundredths, halves away from zero. */
  function Round2(x: real): real
  {
    if x >= 0.0 then (x * 100.0 + 0.5).Floor as real / 100.0
    else -((-x * 100.0 + 0.5).Floor as real / 100.0)
  }

  /** The rounded gap exceeds 0.5 exactly when the gap is at least 0.505. */
  lemma Round2Threshold(x: real)
    ensures Round2(x) > 0.5 <==> x >= 0.505
  {
    if x >= 0.0 {
      var f := (x * 100.0 + 0.5).Floor;
      assert f as real <= x * 100.0 + 0.5 < f as real + 1.0;
      assert Round2(x) > 0.5 <==> f > 50;
    } else {
      assert Round2(x) <= 0.0;
    }
  }

  // ---------------------------------------------------------------------------
  // Insights

  datatype Insight =
    | GapBelow(points: real)                 // 📉 reality below expectation, by the mean gap
    | GapAbove(points: real)                 // 📈 reality above expectation, by |mean gap|
    | Balanced                               // 🎯 expectation and reality agree
    | HighDisappointment(rate: real)         // ⚠️ the percentage of disappointed records
    | WorstSns(sns: string, roundedGap: real) // 🎯 the SNS type to reconsider
    | Widening                               // 📊 the gap has grown lately
    | Narrowing                              // 📊 the gap has shrunk lately

  predicate IsOverall(i: Insight) { i.GapBelow? || i.GapAbove? || i.Balanced? }

  function Title(i: Insight): string
  {
    match i
    case GapBelow(_) => "📉 期待と現実のギャップ"
    case GapAbove(_) => "📈 予想以上の満足"
    case Balanced => "🎯 期待と現実のバランス"
    case HighDisappointment(_) => "⚠️ 高い期待外れ率"
    case WorstSns(sns, _) => "🎯 " + sns + "の分析"
    case Widening => "📊 最近の傾向"
    case Narrowing => "📊 改善の兆し"
  }

  /** 1. The overall verdict; with no records the mean is NaN and both comparisons fail. */
  function Overall(rs: seq<Record>): Insight
  {
    if rs == [] then Balanced
    else
      var avg := Mean(AllGaps(rs));
      if avg > 0.5 then GapBelow(avg) else if avg < -0.5 then GapAbove(-avg) else Balanced
  }

  /** `(disappointments / records.length) * 100`. */
  function DisappointmentRate(rs: seq<Record>): real
    requires rs != []
  {
    (CountDisappointed(rs) as real / |rs| as real) * 100.0
  }

  /** 2. The high-disappointment warning. */
  function DisappointmentPart(rs: seq<Record>): seq<Insight>
  {
    if rs != [] && DisappointmentRate(rs) > 70.0 then [HighDisappointment(DisappointmentRate(rs))] else []
  }

  /**
   * 3. The worst SNS type as the reduce writes it picks it, when that type is truthy (not ""),
   * has two records and its rounded mean gap exceeds 0.5.
   */
  function WorstPart(rs: seq<Record>): seq<Insight>
  {
    TallyMeaning(rs);
    var table := GapTable(rs);
    var worst := PickWorstAsWritten(FirstSeen(rs), table);
    if worst.Some? && worst.value != "" && |table[worst.value]| >= 2 && Round2(Mean(table[worst.value])) > 0.5
    then [WorstSns(worst.value, Round2(Mean(table[worst.value])))]
    else []
  }

  /** The same insight built on the intended reduce. */
  function IntendedWorstPart(rs: seq<Record>): seq<Insight>
  {
    TallyMeaning(rs);
    var table := GapTable(rs);
    var worst := PickWorst(FirstSeen(rs), table);
    if worst.Some? && worst.value != "" && |table[worst.value]| >= 2 && Round2(Mean(table[worst.value])) > 0.5
    then [WorstSns(worst.value, Round2(Mean(table[worst.value])))]
    else []
  }

  /** `records.slice(-5)`. */
  function Recent(rs: seq<Record>): seq<Record>
    requires |rs| >= 5
  {
    rs[|rs| - 5..]
  }

  /** `records.slice(-10, -5)`: up to five records before the last five. */
  function Older(rs: seq<Record>): seq<Record>
    requires |rs| >= 5
  {
    rs[if |rs| >= 10 then |rs| - 10 else 0..|rs| - 5]
  }

  /** 4. The recent trend: the last five records against the up-to-five before them. */
  function TrendPart(rs: seq<Record>): seq<Insight>
  {
    if |rs| >= 5 && |Older(rs)| >= 3 then
      var recentGap := Sum(AllGaps(Recent(rs))) as real / 5.0;
      var olderGap := Mean(AllGaps(Older(rs)));
      if recentGap - olderGap > 0.5 then [Widening]
      else if olderGap - recentGap > 0.5 then [Narrowing]
      else []
    else []
  }

  /** What generateInsights returns, in push order. */
  function Insights(rs: seq<Record>): seq<Insight>
  {
    [Overall(rs)] + DisappointmentPart(rs) + WorstPart(rs) + TrendPart(rs)
  }

  /** The forEach that fills `snsCounts` and `snsGaps`, with the key order of the object. */
  method Tally(records: seq<Record>) returns (keys: seq<string>, counts: map<string, nat>, gaps: map<string, seq<int>>)
    ensures keys == FirstSeen(records) && gaps == GapTable(records)
    ensures counts.Keys == gaps.Keys && forall k :: k in counts ==> counts[k] == |gaps[k]|
  {
    keys, counts, gaps := [], map[], map[];
    var i := 0;
    while i < |records|
      invariant 0 <= i <= |records|
      invariant keys == FirstSeen(records[..i]) && gaps == GapTable(records[..i])
      invariant TallyAgrees(keys, counts, gaps)
    {
      assert records[..i + 1][..i] == records[..i];
      keys, counts, gaps := CountRecord(records[i], keys, counts, gaps);
      i := i + 1;
    }
    assert records[..i] == records;
  }

  /** The keys of both dictionaries are the listed keys, and each count is its number of gaps. */
  ghost predicate TallyAgrees(keys: seq<string>, counts: map<string, nat>, gaps: map<string, seq<int>>) {
    && (forall k :: k in gaps <==> k in keys)
    && counts.Keys == gaps.Keys
    && (forall k :: k in counts ==> counts[k] == |gaps[k]| > 0)
  }

  /** The forEach callback for one record: start the type's entry if its count is falsy, then add to it. */
  method CountRecord(r: Record, keys: seq<string>, counts: map<string, nat>, gaps: map<string, seq<int>>)
    returns (keys': seq<string>, counts': map<string, nat>, gaps': map<string, seq<int>>)
    requires TallyAgrees(keys, counts, gaps)
    ensures TallyAgrees(keys', counts', gaps')
    ensures keys' == if r.snsType in keys then keys else keys + [r.snsType]
    ensures gaps' == gaps[r.snsType := (if r.snsType in gaps then gaps[r.snsType] else []) + [Gap(r)]]
  {
    keys', counts', gaps' := keys, counts, gaps;
    if r.snsType !in counts' || counts'[r.snsType] == 0 {
      counts' := counts'[r.snsType := 0];
      gaps' := gaps'[r.snsType := []];
      keys' := keys' + [r.snsType];
    }
    counts' := counts'[r.snsType := counts'[r.snsType] + 1];
    gaps' := gaps'[r.snsType := gaps'[r.snsType] + [Gap(r)]];
  }

  /** generateInsights: pushes the four kinds of insight in order. */
  method GenerateInsights(records: seq<Record>) returns (insights: seq<Insight>)
    ensures insights == Insights(records)
  {
    insights := [Overall(records)];
    insights := insights + DisappointmentPart(records);
    var keys, counts, gaps := Tally(records);
    TallyMeaning(records);
    var worst := PickWorstAsWritten(keys, gaps);
    var worstPart: seq<Insight> := [];
    if worst.Some? && worst.value != "" && |gaps[worst.value]| >= 2 {
      var worstGap := Round2(Mean(gaps[worst.value]));
      if worstGap > 0.5 {
        worstPart := [WorstSns(worst.value, worstGap)];
      }
    }
    assert worstPart == WorstPart(records);
    insights := insights + worstPart;
    insights := insights + TrendPart(records);
  }

  // ---------------------------------------------------------------------------
  // Properties of the insights

  /** Exactly one overall insight, first, chosen by the mean gap against ±0.5. */
  lemma OverallExactlyOnce(rs: seq<Record>)
    ensures var ins := Insights(rs);
      && |ins| >= 1 && IsOverall(ins[0])
      && (forall i :: 1 <= i < |ins| ==> !IsOverall(ins[i]))
      && (ins[0].GapBelow? <==> rs != [] && Mean(AllGaps(rs)) > 0.5)
      && (ins[0].GapAbove? <==> rs != [] && Mean(AllGaps(rs)) < -0.5)
      && (ins[0].Balanced? <==> rs == [] || -0.5 <= Mean(AllGaps(rs)) <= 0.5)
  {
    OverallKind(rs);
    var rest := DisappointmentPart(rs) + WorstPart(rs) + TrendPart(rs);
    RestNotOverall(rs);
    assert Insights(rs) == [Overall(rs)] + rest;
    forall i | 1 <= i < |Insights(rs)|
      ensures !IsOverall(Insights(rs)[i])
    {
      assert Insights(rs)[i] == rest[i - 1];
    }
  }

  /** The overall insight is chosen by the mean gap alone. */
  lemma OverallKind(rs: seq<Record>)
    ensures var o := Overall(rs);
      && IsOverall(o)
      && (o.GapBelow? <==> rs != [] && Mean(AllGaps(rs)) > 0.5)
      && (o.GapAbove? <==> rs != [] && Mean(AllGaps(rs)) < -0.5)
      && (o.Balanced? <==> rs == [] || -0.5 <= Mean(AllGaps(rs)) <= 0.5)
  {
  }

  /** No insight after the first is an overall one. */
  lemma RestNotOverall(rs: seq<Record>)
    ensures NoOverall(DisappointmentPart(rs) + WorstPart(rs) + TrendPart(rs))
  {
    var d, w, t := DisappointmentPart(rs), WorstPart(rs), TrendPart(rs);
    PartShapes(rs);
    NoOverallAppend(d, w);
    NoOverallAppend(d + w, t);
  }

  ghost predicate NoOverall(ins: seq<Insight>) {
    forall i :: 0 <= i < |ins| ==> !IsOverall(ins[i])
  }

  lemma NoOverallAppend(a: seq<Insight>, b: seq<Insight>)
    requires NoOverall(a) && NoOverall(b)
    ensures NoOverall(a + b)
  {
    forall i | 0 <= i < |a + b|
      ensures !IsOverall((a + b)[i])
    {
      if i >= |a| {
        assert (a + b)[i] == b[i - |a|];
      }
    }
  }

  /** The rate exceeds 70 % exactly when 10·d > 7·n. */
  lemma RateAboveSeventy(d: nat, n: nat)
    requires n > 0
    ensures (d as real / n as real) * 100.0 > 70.0 <==> 10 * d > 7 * n
  {
    var x, m := d as real, n as real;
    assert (x / m) * 100.0 == (x * 100.0) / m;
    DivAbove(x * 100.0, m, 70.0);
  }

  lemma DivAbove(y: real, m: real, c: real)
    requires m > 0.0
    ensures y / m > c <==> y > c * m
  {
    var z := y / m;
    assert z * m == y;
    if z > c {
      MulMonotone(c, z, m);
    } else {
      MulMonotone(z, c, m);
    }
  }

  lemma MulMonotone(a: real, b: real, m: real)
    requires m > 0.0 && a <= b
    ensures a * m <= b * m && (a < b ==> a * m < b * m)
  {
  }

  /** Whether a list of insights holds the disappointment warning. */
  ghost predicate Warns(ins: seq<Insight>) {
    exists i :: 0 <= i < |ins| && ins[i].HighDisappointment?
  }

  lemma WarnsAppend(a: seq<Insight>, b: seq<Insight>)
    ensures Warns(a + b) <==> Warns(a) || Warns(b)
  {
    if Warns(a + b) {
      var i :| 0 <= i < |a + b| && (a + b)[i].HighDisappointment?;
      if i >= |a| {
        assert b[i - |a|] == (a + b)[i];
      }
    }
    if Warns(b) {
      var i :| 0 <= i < |b| && b[i].HighDisappointment?;
      assert (a + b)[|a| + i] == b[i];
    }
    if Warns(a) {
      var i :| 0 <= i < |a| && a[i].HighDisappointment?;
      assert (a + b)[i] == a[i];
    }
  }

  /** Each part after the overall insight holds at most one insight of its own kind. */
  lemma PartShapes(rs: seq<Record>)
    ensures var d := DisappointmentPart(rs); d == [] || (|d| == 1 && d[0].HighDisappointment?)
    ensures var w := WorstPart(rs); w == [] || (|w| == 1 && w[0].WorstSns?)
    ensures var t := TrendPart(rs); t == [] || t == [Widening] || t == [Narrowing]
  {
  }

  /** The overall, worst-type and trend parts never warn. */
  lemma OtherPartsQuiet(rs: seq<Record>)
    ensures !Warns([Overall(rs)]) && !Warns(WorstPart(rs)) && !Warns(TrendPart(rs))
  {
    assert !Overall(rs).HighDisappointment?;
    PartShapes(rs);
  }

  /** The disappointment part warns exactly above 70 %. */
  lemma DisappointmentPartWarns(rs: seq<Record>)
    ensures Warns(DisappointmentPart(rs)) <==> rs != [] && 10 * CountDisappointed(rs) > 7 * |rs|
  {
    var d := DisappointmentPart(rs);
    if rs != [] {
      RateAboveSeventy(CountDisappointed(rs), |rs|);
    }
    if rs != [] && 10 * CountDisappointed(rs) > 7 * |rs| {
      assert d[0].HighDisappointment?;
    } else {
      assert d == [];
    }
  }


  /** The disappointment warning appears exactly when more than 70 % of records are disappointing. */
  lemma DisappointmentRule(rs: seq<Record>)
    ensures (exists i :: 0 <= i < |Insights(rs)| && Insights(rs)[i].HighDisappointment?)
            <==> rs != [] && 10 * CountDisappointed(rs) > 7 * |rs|
  {
    var o, d, w, t := [Overall(rs)], DisappointmentPart(rs), WorstPart(rs), TrendPart(rs);
    assert Insights(rs) == o + d + w + t;
    WarnsAppend(o + d + w, t);
    WarnsAppend(o + d, w);
    WarnsAppend(o, d);
    OtherPartsQuiet(rs);
    DisappointmentPartWarns(rs);
  }


  /**
   * The worst-type insight names the type the reduce as written picks, and appears exactly
   * when that type is not "", has two records and a mean gap of at least 0.505; when no
   * record has the empty type, that is the type with the largest mean gap.
   */
  lemma WorstSnsRule(rs: seq<Record>) returns (w: string)
    requires rs != []
    ensures exists i :: 0 <= i < |rs| && rs[i].snsType == w
    ensures var g := GapsOf(rs, w);
      && |g| > 0
      && WorstPart(rs) == (if w != "" && |g| >= 2 && Mean(g) >= 0.505 then [WorstSns(w, Round2(Mean(g)))] else [])
      && ((forall i :: 0 <= i < |rs| ==> rs[i].snsType != "") ==>
            forall i :: 0 <= i < |rs| ==> |GapsOf(rs, rs[i].snsType)| > 0 && Mean(GapsOf(rs, rs[i].snsType)) <= Mean(g))
  {
    TallyMeaning(rs);
    var keys, table := FirstSeen(rs), GapTable(rs);
    assert rs[0].snsType in keys;
    w := PickWorstAsWritten(keys, table).value;
    Round2Threshold(Mean(table[w]));
    if forall i :: 0 <= i < |rs| ==> rs[i].snsType != "" {
      AsWrittenWithoutEmpty(keys, table);
      var k := PickWorstIsMax(keys, table);
      forall i | 0 <= i < |rs|
        ensures |GapsOf(rs, rs[i].snsType)| > 0 && Mean(GapsOf(rs, rs[i].snsType)) <= Mean(GapsOf(rs, w))
      {
        var s := rs[i].snsType;
        assert s in keys;
        var j :| 0 <= j < |keys| && keys[j] == s;
        assert Mean(table[keys[j]]) <= Mean(table[keys[k]]);
      }
    }
  }

  /**
   * The intended insight names the type with the largest mean gap (the first-seen one on a
   * tie) and appears exactly when that type is not "", has two records and a mean gap of
   * at least 0.505.
   */
  lemma IntendedWorstSnsRule(rs: seq<Record>) returns (w: string)
    requires rs != []
    ensures exists i :: 0 <= i < |rs| && rs[i].snsType == w
    ensures var g := GapsOf(rs, w);
      && |g| > 0
      && (forall i :: 0 <= i < |rs| ==> |GapsOf(rs, rs[i].snsType)| > 0 && Mean(GapsOf(rs, rs[i].snsType)) <= Mean(g))
      && IntendedWorstPart(rs) == (if w != "" && |g| >= 2 && Mean(g) >= 0.505 then [WorstSns(w, Round2(Mean(g)))] else [])
  {
    TallyMeaning(rs);
    var keys, table := FirstSeen(rs), GapTable(rs);
    assert rs[0].snsType in keys;
    var k := PickWorstIsMax(keys, table);
    w := keys[k];
    Round2Threshold(Mean(table[w]));
    forall i | 0 <= i < |rs|
      ensures |GapsOf(rs, rs[i].snsType)| > 0 && Mean(GapsOf(rs, rs[i].snsType)) <= Mean(GapsOf(rs, w))
    {
      var s := rs[i].snsType;
      assert s in keys;
      var j :| 0 <= j < |keys| && keys[j] == s;
      assert Mean(table[keys[j]]) <= Mean(table[keys[k]]);
    }
  }

  /** The two insights coincide whenever no record has the empty SNS type. */
  lemma WorstPartsAgree(rs: seq<Record>)
    requires forall i :: 0 <= i < |rs| ==> rs[i].snsType != ""
    ensures WorstPart(rs) == IntendedWorstPart(rs)
  {
    TallyMeaning(rs);
    AsWrittenWithoutEmpty(FirstSeen(rs), GapTable(rs));
  }

  /**
   * The trend insight needs at least eight records (five recent and three older), and it
   * points in the direction in which the means differ by more than 0.5.
   */
  lemma TrendRule(rs: seq<Record>)
    ensures TrendPart(rs) != [] ==> |rs| >= 8
    ensures |rs| >= 8 ==> |Older(rs)| >= 3
    ensures |rs| >= 8 ==>
      var recentGap := Mean(AllGaps(Recent(rs)));
      var olderGap := Mean(AllGaps(Older(rs)));
      && (TrendPart(rs) == [Widening] <==> recentGap - olderGap > 0.5)
      && (TrendPart(rs) == [Narrowing] <==> olderGap - recentGap > 0.5)
  {
  }

  // ---------------------------------------------------------------------------
  // The diary's state

  class RecordBook {
    /** `records`, in the order they were saved. */
    var records: seq<Record>
    /** `currentRecord`: the record being filled in. */
    var current: Record

    /** Page load: the draft starts with no SNS type, and saved records are loaded if any. */
    constructor (saved: Option<seq<Record>>)
      ensures current == Draft("")
      ensures records == saved.GetOr([])
    {
      current := Draft("");
      records := saved.GetOr([]);
    }

    /** An expectation button was clicked. */
    method SetExpectation(value: int)
      modifies this`current
      ensures current == old(current).(expectation := Some(value))
    {
      current := current.(expectation := Some(value));
    }

    /** A satisfaction button was clicked. */
    method SetSatisfaction(value: int)
      modifies this`current
      ensures current == old(current).(satisfaction := Some(value))
    {
      current := current.(satisfaction := Some(value));
    }

    /** The SNS selector changed. */
    method SelectSns(snsType: string)
      modifies this`current
      ensures current == old(current).(snsType := snsType)
    {
      current := current.(snsType := snsType);
    }

    /**
     * saveRecord: stamps the draft, appends one copy of it, and reports the gap. The draft
     * keeps its timestamp until the next reset.
     */
    method SaveRecord(now: string) returns (v: Verdict)
      modifies this`records, this`current
      ensures current == old(current).(timestamp := Some(now))
      ensures records == old(records) + [current]
      ensures v == VerdictOf(current)
    {
      current := current.(timestamp := Some(now));
      records := records + [current];
      v := VerdictOf(current);
    }

    /** resetRecord: a fresh draft for the SNS type shown in the selector. */
    method ResetRecord(selected: string)
      modifies this`current
      ensures current == Draft(selected)
    {
      current := Draft(selected);
    }

    /** The clear-data button: only a confirmed request empties the list. */
    method ClearData(confirmed: bool)
      modifies this`records
      ensures records == if confirmed then [] else old(records)
    {
      if confirmed {
        records := [];
      }
    }

    /** renderInsights: nothing below three records, otherwise the generated insights. */
    method RenderInsights() returns (shown: Option<seq<Insight>>)
      ensures shown.None? <==> |records| < 3
      ensures shown.Some? ==> shown.value == Insights(records) && IsOverall(shown.value[0])
    {
      if |records| < 3 {
        return None;
      }
      var insights := GenerateInsights(records);
      OverallExactlyOnce(records);
      shown := Some(insights);
    }
  }

  /** Saving three drafts in a row makes insights appear, with exactly one overall verdict. */
  method ThreeSavesShowInsights() returns (shown: Option<seq<Insight>>)
    ensures shown.Some? && |shown.value| >= 1 && shown.value[0] == GapBelow(2.0)
  {
    var book := new RecordBook(None);
    var i := 0;
    while i < 3
      invariant 0 <= i <= 3 && |book.records| == i
      invariant forall j :: 0 <= j < i ==> Gap(book.records[j]) == 2
      modifies book
    {
      book.ResetRecord("X");
      book.SetExpectation(4);
      book.SetSatisfaction(2);
      var _ := book.SaveRecord("t");
      i := i + 1;
    }
    shown := book.RenderInsights();
    var g := AllGaps(book.records);
    assert g == [2, 2, 2];
    assert g[..2] == [2, 2] && g[..2][..1] == [2] && g[..2][..1][..0] == [];
    assert Sum(g[..2][..1]) == 2;
    assert Sum(g[..2]) == 4;
    assert Sum(g) == 6;
  }
}
