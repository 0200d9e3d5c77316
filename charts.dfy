/** The two computations inside the dashboard charts (components/Charts.tsx):
    the skill scores a parent sees, seeded by the length of the student's
    name, and the class-level histogram a teacher sees, built by counting
    students into a dictionary keyed by level label. */
module Charts {
  import opened Types
  import opened Sequences
  import opened Text

  // ---------------------------------------------------------------------
  // Skill scores
  // ---------------------------------------------------------------------

  datatype SkillScore = SkillScore(subject: string, score: int, fullMark: int)

  const FullMark: int := 100

  /** The five radar-chart scores: each is its base plus the name length
      modulo a per-subject span, so it stays within its band and never
      exceeds the full mark. */
  function SkillScores(student: Student): (data: seq<SkillScore>)
    ensures |data| == 5
    ensures data[0].subject == "Sketching" && 80 <= data[0].score <= 94
    ensures data[1].subject == "Color" && 70 <= data[1].score <= 94
    ensures data[2].subject == "Composition" && 60 <= data[2].score <= 94
    ensures data[3].subject == "Creativity" && 85 <= data[3].score <= 94
    ensures data[4].subject == "Discipline" && 90 <= data[4].score <= 94
    ensures forall i :: 0 <= i < |data| ==> data[i].fullMark == FullMark && data[i].score <= data[i].fullMark
  {
    ScoresForSeed(Utf16Length(student.name))
  }

  /** The chart data for a seed. */
  function ScoresForSeed(seed: nat): seq<SkillScore> {
    [ SkillScore("Sketching", 80 + seed % 15, FullMark),
      SkillScore("Color", 70 + seed % 25, FullMark),
      SkillScore("Composition", 60 + seed % 35, FullMark),
      SkillScore("Creativity", 85 + seed % 10, FullMark),
      SkillScore("Discipline", 90 + seed % 5, FullMark) ]
  }

  /** Only the length of the name matters: two students whose names have
      the same length get the same chart, whatever else differs. */
  lemma ScoresDependOnlyOnNameLength(a: Student, b: Student)
    ensures Utf16Length(a.name) == Utf16Length(b.name) ==> SkillScores(a) == SkillScores(b)
  {
  }

  // ---------------------------------------------------------------------
  // Class-level histogram
  // ---------------------------------------------------------------------

  /** `Lvl ${s.currentLevel}`. */
  function LevelLabel(l: ClassLevel): string {
    "Lvl " + [DigitChar(l)]
  }

  /** Different levels get different labels, so counting by label is
      counting by level. */
  lemma LevelLabelInjective(a: ClassLevel, b: ClassLevel)
    requires LevelLabel(a) == LevelLabel(b)
    ensures a == b
  {
    assert LevelLabel(a)[4] == DigitChar(a);
    assert LevelLabel(b)[4] == DigitChar(b);
  }

  function AtLevel(l: ClassLevel): Student -> bool { (s: Student) => s.currentLevel == l }

  /** Some student is at level `l`. */
  predicate Occurs(students: seq<Student>, l: ClassLevel) {
    exists i :: 0 <= i < |students| && students[i].currentLevel == l
  }

  /** The number of students at level `l`. */
  function CountLevel(students: seq<Student>, l: ClassLevel): (n: nat)
    ensures n <= |students|
    ensures n > 0 <==> Occurs(students, l)
  {
    var r := Filter(students, AtLevel(l));
    assert r != [] ==> r[0] in r;
    assert forall i :: 0 <= i < |students| && students[i].currentLevel == l ==> students[i] in r;
    |r|
  }

  /** Counting over one more student. */
  lemma CountLevelSnoc(students: seq<Student>, x: Student, l: ClassLevel)
    ensures CountLevel(students + [x], l) == CountLevel(students, l) + (if x.currentLevel == l then 1 else 0)
  {
    FilterAppend(students, [x], AtLevel(l));
    FilterCons(x, [], AtLevel(l));
    assert [x] + [] == [x];
  }

  /** The first index of a student at level `l`, or -1. */
  function FirstAt(students: seq<Student>, l: ClassLevel): int {
    FindIndex(students, AtLevel(l))
  }

  /** The levels that occur, each once, in the order in which each first
      occurs. */
  function LevelsInOrder(students: seq<Student>): (r: seq<ClassLevel>)
    ensures forall l :: l in r <==> Occurs(students, l)
    ensures forall i, j :: 0 <= i < j < |r| ==> r[i] != r[j]
    decreases |students|
  {
    if students == [] then []
    else
      var n := |students| - 1;
      var prefix := students[..n];
      var prev := LevelsInOrder(prefix);
      var l := students[n].currentLevel;
      assert forall m :: Occurs(students, m) <==> Occurs(prefix, m) || m == l by {
        forall m | Occurs(students, m) && m != l ensures Occurs(prefix, m) {
          var i :| 0 <= i < |students| && students[i].currentLevel == m;
          assert prefix[i] == students[i];
        }
        forall m | Occurs(prefix, m) ensures Occurs(students, m) {
          var i :| 0 <= i < |prefix| && prefix[i].currentLevel == m;
          assert students[i] == prefix[i];
        }
      }
      if l in prev then prev else prev + [l]
  }

  /** One more student adds its level at the end of the list when the
      level is new, and leaves the list alone otherwise. */
  lemma LevelsInOrderSnoc(prefix: seq<Student>, x: Student)
    ensures LevelsInOrder(prefix + [x])
         == if x.currentLevel in LevelsInOrder(prefix) then LevelsInOrder(prefix)
            else LevelsInOrder(prefix) + [x.currentLevel]
  {
    assert (prefix + [x])[..|prefix|] == prefix;
  }

  /** One more student does not move the first student of a level that
      already occurs, and is the first student of a level that did not. */
  lemma FirstAtSnoc(prefix: seq<Student>, x: Student, l: ClassLevel)
    ensures Occurs(prefix, l) ==> FirstAt(prefix + [x], l) == FirstAt(prefix, l) >= 0
    ensures !Occurs(prefix, l) && x.currentLevel == l ==> FirstAt(prefix + [x], l) == |prefix|
  {
    FindIndexAppend(prefix, x, AtLevel(l));
    if Occurs(prefix, l) {
      var i :| 0 <= i < |prefix| && prefix[i].currentLevel == l;
      assert AtLevel(l)(prefix[i]);
    }
  }

  /** The levels are listed in the order of their first students. */
  ghost predicate InFirstAppearanceOrder(students: seq<Student>, levels: seq<ClassLevel>) {
    forall i, j :: 0 <= i < j < |levels| ==> 0 <= FirstAt(students, levels[i]) < FirstAt(students, levels[j])
  }

  /** Each level comes before every level whose first student comes later. */
  lemma {:induction false} LevelsInFirstAppearanceOrder(students: seq<Student>)
    ensures InFirstAppearanceOrder(students, LevelsInOrder(students))
    decreases |students|
  {
    if students != [] {
      var n := |students| - 1;
      var prefix, x := students[..n], students[n];
      assert students == prefix + [x];
      LevelsInFirstAppearanceOrder(prefix);
      LevelsInOrderSnoc(prefix, x);
      OrderAfterOneMore(prefix, x, LevelsInOrder(prefix));
    }
  }

  /** One more student keeps the known levels in order, and a new level
      goes after all of them. */
  lemma OrderAfterOneMore(prefix: seq<Student>, x: Student, prev: seq<ClassLevel>)
    requires InFirstAppearanceOrder(prefix, prev)
    requires forall l :: l in prev <==> Occurs(prefix, l)
    ensures x.currentLevel in prev ==> InFirstAppearanceOrder(prefix + [x], prev)
    ensures x.currentLevel !in prev ==> InFirstAppearanceOrder(prefix + [x], prev + [x.currentLevel])
  {
    var s := prefix + [x];
    forall i | 0 <= i < |prev| ensures FirstAt(s, prev[i]) == FirstAt(prefix, prev[i]) >= 0 {
      assert prev[i] in prev;
      FirstAtSnoc(prefix, x, prev[i]);
    }
    if x.currentLevel !in prev {
      var r := prev + [x.currentLevel];
      FirstAtSnoc(prefix, x, x.currentLevel);
      forall i, j | 0 <= i < j < |r| ensures 0 <= FirstAt(s, r[i]) < FirstAt(s, r[j]) {
        assert r[i] == prev[i];
        if j < |prev| {
          assert r[j] == prev[j];
        } else {
          assert r[j] == x.currentLevel;
        }
      }
    }
  }

  datatype LevelCount = LevelCount(name: string, value: nat)

  /** The histogram entry of each level. */
  function Entries(students: seq<Student>, levels: seq<ClassLevel>): (r: seq<LevelCount>)
    ensures |r| == |levels|
    ensures forall i :: 0 <= i < |levels| ==> r[i] == LevelCount(LevelLabel(levels[i]), CountLevel(students, levels[i]))
  {
    seq(|levels|, i requires 0 <= i < |levels| => LevelCount(LevelLabel(levels[i]), CountLevel(students, levels[i])))
  }

  /** The chart data: one entry per occurring level, in first-appearance
      order, with the number of students at that level. */
  function Histogram(students: seq<Student>): seq<LevelCount> {
    Entries(students, LevelsInOrder(students))
  }

  /** The dictionary and its key order describe the histogram of
      `students`: one key per occurring level in first-appearance order,
      each holding its level's count. */
  ghost predicate DescribesHistogram(levelCounts: map<string, nat>, keys: seq<string>, students: seq<Student>) {
    KeysFollowLevels(levelCounts, keys, students) && CountsMatch(levelCounts, students)
  }

  /** The keys, in order, are the labels of the occurring levels, and the
      dictionary holds exactly those keys. */
  ghost predicate KeysFollowLevels(levelCounts: map<string, nat>, keys: seq<string>, students: seq<Student>) {
    var levels := LevelsInOrder(students);
    && |keys| == |levels|
    && (forall j :: 0 <= j < |keys| ==> keys[j] == LevelLabel(levels[j]))
    && (forall k :: k in levelCounts <==> k in keys)
  }

  /** Each label in the dictionary holds its level's count. */
  ghost predicate CountsMatch(levelCounts: map<string, nat>, students: seq<Student>) {
    forall l: ClassLevel :: LevelLabel(l) in levelCounts ==> levelCounts[LevelLabel(l)] == CountLevel(students, l)
  }

  /** The dictionary after counting `s`. */
  function CountedOneMore(levelCounts: map<string, nat>, s: Student): map<string, nat> {
    var lvl := LevelLabel(s.currentLevel);
    levelCounts[lvl := (if lvl in levelCounts then levelCounts[lvl] else 0) + 1]
  }

  /** The key order after counting `s`. */
  function KeysOneMore(levelCounts: map<string, nat>, keys: seq<string>, s: Student): seq<string> {
    var lvl := LevelLabel(s.currentLevel);
    if lvl in levelCounts then keys else keys + [lvl]
  }

  /** Counting one more student into the dictionary, with its key added
      when it is new, describes the longer list. */
  lemma CountOneMore(levelCounts: map<string, nat>, keys: seq<string>, prefix: seq<Student>, s: Student)
    requires DescribesHistogram(levelCounts, keys, prefix)
    ensures DescribesHistogram(CountedOneMore(levelCounts, s), KeysOneMore(levelCounts, keys, s), prefix + [s])
  {
    KeysAfterOneMore(levelCounts, keys, prefix, s);
    CountsAfterOneMore(levelCounts, keys, prefix, s);
  }

  lemma KeysAfterOneMore(levelCounts: map<string, nat>, keys: seq<string>, prefix: seq<Student>, s: Student)
    requires KeysFollowLevels(levelCounts, keys, prefix)
    ensures KeysFollowLevels(CountedOneMore(levelCounts, s), KeysOneMore(levelCounts, keys, s), prefix + [s])
  {
    var lvl := LevelLabel(s.currentLevel);
    var prev := LevelsInOrder(prefix);
    var levels := LevelsInOrder(prefix + [s]);
    var after := CountedOneMore(levelCounts, s);
    var keys' := KeysOneMore(levelCounts, keys, s);
    LevelsInOrderSnoc(prefix, s);
    if lvl in levelCounts {
      var j :| 0 <= j < |keys| && keys[j] == lvl;
      LevelLabelInjective(prev[j], s.currentLevel);
      assert levels == prev && keys' == keys;
    } else {
      assert s.currentLevel !in prev;
      assert levels == prev + [s.currentLevel] && keys' == keys + [lvl];
    }
    assert forall j :: 0 <= j < |keys'| ==> keys'[j] == LevelLabel(levels[j]);
    assert forall k :: k in after <==> k in keys';
  }

  lemma CountsAfterOneMore(levelCounts: map<string, nat>, keys: seq<string>, prefix: seq<Student>, s: Student)
    requires DescribesHistogram(levelCounts, keys, prefix)
    ensures CountsMatch(CountedOneMore(levelCounts, s), prefix + [s])
  {
    var lvl := LevelLabel(s.currentLevel);
    var after := CountedOneMore(levelCounts, s);
    forall l: ClassLevel | LevelLabel(l) in after
      ensures after[LevelLabel(l)] == CountLevel(prefix + [s], l)
    {
      CountLevelSnoc(prefix, s, l);
      if LevelLabel(l) == lvl {
        LevelLabelInjective(l, s.currentLevel);
      }
    }
  }

  /** `levelCounts` and its `Object.keys` order (insertion order, since no
      label is an array index), turned into the chart data. */
  method ClassDistribution(students: seq<Student>) returns (data: seq<LevelCount>)
    ensures data == Histogram(students)
  {
    var levelCounts: map<string, nat> := map[];
    var keys: seq<string> := [];
    var i := 0;
    while i < |students|
      invariant 0 <= i <= |students|
      invariant DescribesHistogram(levelCounts, keys, students[..i])
    {
      assert students[..i + 1] == students[..i] + [students[i]];
      var lvl := LevelLabel(students[i].currentLevel);
      CountOneMore(levelCounts, keys, students[..i], students[i]);
      if lvl !in levelCounts {
        keys := keys + [lvl];
      }
      levelCounts := levelCounts[lvl := (if lvl in levelCounts then levelCounts[lvl] else 0) + 1];
      assert DescribesHistogram(levelCounts, keys, students[..i + 1]);
      i := i + 1;
    }
    assert students[..i] == students;
    data := seq(|keys|, j requires 0 <= j < |keys| => LevelCount(keys[j], levelCounts[keys[j]]));
  }

  /** The sum of the counts. */
  function Total(data: seq<LevelCount>): nat {
    if data == [] then 0 else Total(data[..|data| - 1]) + data[|data| - 1].value
  }

  /** The counts over distinct levels grow by one when a student at one of
      those levels is added, and stay otherwise. */
  lemma {:induction false} TotalSnoc(students: seq<Student>, x: Student, levels: seq<ClassLevel>)
    requires forall i, j :: 0 <= i < j < |levels| ==> levels[i] != levels[j]
    ensures Total(Entries(students + [x], levels))
         == Total(Entries(students, levels)) + (if x.currentLevel in levels then 1 else 0)
    decreases |levels|
  {
    if levels != [] {
      var n := |levels| - 1;
      var front, last := levels[..n], levels[n];
      assert levels == front + [last];
      TotalSnoc(students, x, front);
      TotalAppendLevel(students + [x], front, last);
      TotalAppendLevel(students, front, last);
      CountLevelSnoc(students, x, last);
      assert last !in front;
    }
  }

  /** Appending one level to the list appends its entry. */
  lemma TotalAppendLevel(students: seq<Student>, levels: seq<ClassLevel>, l: ClassLevel)
    ensures Total(Entries(students, levels + [l])) == Total(Entries(students, levels)) + CountLevel(students, l)
  {
    assert Entries(students, levels + [l])[..|levels|] == Entries(students, levels);
  }

  /** Every student is counted exactly once: the counts add up to the
      number of students. */
  lemma {:induction false} HistogramTotal(students: seq<Student>)
    ensures Total(Histogram(students)) == |students|
    decreases |students|
  {
    if students != [] {
      var n := |students| - 1;
      var prefix := students[..n];
      var x := students[n];
      assert students == prefix + [x];
      HistogramTotal(prefix);
      var prev := LevelsInOrder(prefix);
      TotalSnoc(prefix, x, prev);
      if x.currentLevel !in prev {
        TotalAppendLevel(students, prev, x.currentLevel);
        CountLevelSnoc(prefix, x, x.currentLevel);
        assert CountLevel(prefix, x.currentLevel) == 0;
      }
    }
  }

  /** A level has an entry exactly when some student is at it. */
  lemma HistogramCoversOccurringLevels(students: seq<Student>, l: ClassLevel)
    ensures (exists i :: 0 <= i < |Histogram(students)| && Histogram(students)[i].name == LevelLabel(l))
            <==> Occurs(students, l)
  {
    var levels := LevelsInOrder(students);
    var h := Histogram(students);
    if exists i :: 0 <= i < |h| && h[i].name == LevelLabel(l) {
      var i :| 0 <= i < |h| && h[i].name == LevelLabel(l);
      LevelLabelInjective(levels[i], l);
      assert levels[i] in levels;
    }
    if Occurs(students, l) {
      assert l in levels;
      var i :| 0 <= i < |levels| && levels[i] == l;
      assert h[i].name == LevelLabel(l);
    }
  }

  /** No level has two entries. */
  lemma HistogramLabelsUnique(students: seq<Student>)
    ensures forall i, j :: 0 <= i < j < |Histogram(students)| ==> Histogram(students)[i].name != Histogram(students)[j].name
  {
    var levels := LevelsInOrder(students);
    var h := Histogram(students);
    forall i, j | 0 <= i < j < |h| ensures h[i].name != h[j].name {
      if h[i].name == h[j].name {
        LevelLabelInjective(levels[i], levels[j]);
      }
    }
  }

  /** Every entry counts at least one student. */
  lemma HistogramCountsPositive(students: seq<Student>)
    ensures forall i :: 0 <= i < |Histogram(students)| ==> Histogram(students)[i].value >= 1
  {
    var levels := LevelsInOrder(students);
    forall i | 0 <= i < |levels| ensures CountLevel(students, levels[i]) >= 1 {
      assert levels[i] in levels;
    }
  }
}
