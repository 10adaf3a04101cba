/**
 * The question datasets of the proof-of-concept: categories, questions, the
 * category filter, random sampling (the random draw is a parameter), and the
 * check that an export path stays inside the allowed directories. The test
 * dataset and the evaluation dataset share these definitions: their classes
 * and helpers are the same apart from names.
 */
module Datasets {
  import opened Outcomes
  import opened Text
  import opened Sequences

  // ---------------------------------------------------------------------------
  // Categories
  // ---------------------------------------------------------------------------

  datatype Category = Technical | Business | Scientific | Historical | Comparative | Emerging | Synthesis | Validation

  /** The members of `ResearchCategory`, in declaration order. */
  const AllCategories: seq<Category> :=
    [Technical, Business, Scientific, Historical, Comparative, Emerging, Synthesis, Validation]

  /** The enum's string value. */
  function CategoryLabel(c: Category): string {
    match c
    case Technical => "technical"
    case Business => "business"
    case Scientific => "scientific"
    case Historical => "historical"
    case Comparative => "comparative"
    case Emerging => "emerging"
    case Synthesis => "synthesis"
    case Validation => "validation"
  }

  /** `ResearchCategory(value)`: the member with that value, if any. */
  function CategoryFromLabel(s: string): (r: Option<Category>)
    ensures r.Some? ==> CategoryLabel(r.value) == s
  {
    if s == "technical" then Some(Technical)
    else if s == "business" then Some(Business)
    else if s == "scientific" then Some(Scientific)
    else if s == "historical" then Some(Historical)
    else if s == "comparative" then Some(Comparative)
    else if s == "emerging" then Some(Emerging)
    else if s == "synthesis" then Some(Synthesis)
    else if s == "validation" then Some(Validation)
    else None
  }

  /** Every category's value reads back as that category, so the eight values are distinct. */
  lemma CategoryLabelRoundTrip(c: Category)
    ensures CategoryFromLabel(CategoryLabel(c)) == Some(c)
  {
  }

  /** Every category is listed exactly once. */
  lemma AllCategoriesOnce(c: Category)
    ensures multiset(AllCategories)[c] == 1
  {
  }

  // ---------------------------------------------------------------------------
  // Questions
  // ---------------------------------------------------------------------------

  datatype Question = Question(
    id: string,
    query: string,
    category: Category,
    difficulty: string,
    expectedSources: int,
    notes: string)

  datatype Dataset = Dataset(version: string, questions: seq<Question>)

  const DatasetVersion: string := "1.0.0"

  /** `EvaluationDataset()` with every field defaulted. */
  const EmptyEvaluationDataset: Dataset := Dataset(DatasetVersion, [])

  const Difficulties: set<string> := {"easy", "medium", "hard"}

  /** The elements of `xs` whose category is `c`, in their original order. */
  function OfCategory<T(!new)>(xs: seq<T>, category: T -> Category, c: Category): (r: seq<T>)
    ensures |r| <= |xs|
    ensures forall x :: x in r <==> x in xs && category(x) == c
  {
    if |xs| == 0 then []
    else (if category(xs[0]) == c then [xs[0]] else []) + OfCategory(xs[1..], category, c)
  }

  /** `by_category`. */
  function ByCategory(qs: seq<Question>, c: Category): (r: seq<Question>)
    ensures forall q :: q in r <==> q in qs && q.category == c
  {
    OfCategory(qs, (q: Question) => q.category, c)
  }

  /** Filtering distributes over concatenation: together with membership, this says the order is kept. */
  lemma {:induction false} OfCategoryAppend<T(!new)>(xs: seq<T>, ys: seq<T>, category: T -> Category, c: Category)
    ensures OfCategory(xs + ys, category, c) == OfCategory(xs, category, c) + OfCategory(ys, category, c)
    decreases |xs|
  {
    if |xs| == 0 {
      assert xs + ys == ys;
    } else {
      assert (xs + ys)[1..] == xs[1..] + ys;
      OfCategoryAppend(xs[1..], ys, category, c);
    }
  }

  /** A sequence all of one category filters to itself, and to nothing for any other category. */
  lemma {:induction false} OfCategoryUniform<T(!new)>(xs: seq<T>, category: T -> Category, c: Category, d: Category)
    requires forall i :: 0 <= i < |xs| ==> category(xs[i]) == d
    ensures OfCategory(xs, category, c) == if c == d then xs else []
    decreases |xs|
  {
    if |xs| > 0 {
      var rest := xs[1..];
      assert forall i :: 0 <= i < |rest| ==> rest[i] == xs[i + 1];
      OfCategoryUniform(rest, category, c, d);
      assert category(xs[0]) == d;
      if c == d {
        assert [xs[0]] + rest == xs;
      }
    }
  }

  /** How many elements fall into each of the listed categories, summed. */
  function CountAcross<T(!new)>(xs: seq<T>, category: T -> Category, cs: seq<Category>): nat
    decreases |cs|
  {
    if |cs| == 0 then 0 else |OfCategory(xs, category, cs[0])| + CountAcross(xs, category, cs[1..])
  }

  /** 1 when `c` is `d`, else 0, summed over `cs`. */
  function Occurrences(cs: seq<Category>, d: Category): nat
    decreases |cs|
  {
    if |cs| == 0 then 0 else (if cs[0] == d then 1 else 0) + Occurrences(cs[1..], d)
  }

  lemma {:induction false} CountAcrossCons<T(!new)>(x: T, xs: seq<T>, category: T -> Category, cs: seq<Category>)
    ensures CountAcross([x] + xs, category, cs) == Occurrences(cs, category(x)) + CountAcross(xs, category, cs)
    decreases |cs|
  {
    if |cs| > 0 {
      CountAcrossCons(x, xs, category, cs[1..]);
      assert ([x] + xs)[1..] == xs;
    }
  }

  lemma AllCategoriesOccurOnce(d: Category)
    ensures Occurrences(AllCategories, d) == 1
  {
    assert d in AllCategories by {
      match d
      case Technical => assert AllCategories[0] == d;
      case Business => assert AllCategories[1] == d;
      case Scientific => assert AllCategories[2] == d;
      case Historical => assert AllCategories[3] == d;
      case Comparative => assert AllCategories[4] == d;
      case Emerging => assert AllCategories[5] == d;
      case Synthesis => assert AllCategories[6] == d;
      case Validation => assert AllCategories[7] == d;
    }
    AllCategoriesDistinct();
    OccurrencesOnce(AllCategories, d);
  }

  lemma AllCategoriesDistinct()
    ensures forall i, j :: 0 <= i < j < |AllCategories| ==> AllCategories[i] != AllCategories[j]
  {
  }

  /** A value that is not listed occurs zero times. */
  lemma {:induction false} OccurrencesAbsent(cs: seq<Category>, d: Category)
    requires d !in cs
    ensures Occurrences(cs, d) == 0
    decreases |cs|
  {
    if |cs| > 0 {
      assert cs[0] != d;
      assert forall k :: 0 <= k < |cs[1..]| ==> cs[1..][k] == cs[k + 1];
      OccurrencesAbsent(cs[1..], d);
    }
  }

  /** In a list without repeats, a listed value occurs exactly once. */
  lemma {:induction false} OccurrencesOnce(cs: seq<Category>, d: Category)
    requires d in cs
    requires forall i, j :: 0 <= i < j < |cs| ==> cs[i] != cs[j]
    ensures Occurrences(cs, d) == 1
    decreases |cs|
  {
    var rest := cs[1..];
    assert forall k :: 0 <= k < |rest| ==> rest[k] == cs[k + 1];
    if cs[0] == d {
      assert d !in rest by {
        forall k | 0 <= k < |rest| ensures rest[k] != d {
          assert cs[0] != cs[k + 1];
        }
      }
      OccurrencesAbsent(rest, d);
    } else {
      OccurrencesOnce(rest, d);
    }
  }

  /** The categories partition any sequence: the per-category counts add up to its length. */
  lemma {:induction false} CategoriesPartition<T(!new)>(xs: seq<T>, category: T -> Category)
    ensures CountAcross(xs, category, AllCategories) == |xs|
    decreases |xs|
  {
    if |xs| == 0 {
      EmptyCountAcross(category, AllCategories);
    } else {
      assert [xs[0]] + xs[1..] == xs;
      CountAcrossCons(xs[0], xs[1..], category, AllCategories);
      AllCategoriesOccurOnce(category(xs[0]));
      CategoriesPartition(xs[1..], category);
    }
  }

  lemma {:induction false} EmptyCountAcross<T(!new)>(category: T -> Category, cs: seq<Category>)
    ensures CountAcross([], category, cs) == 0
    decreases |cs|
  {
    if |cs| > 0 {
      EmptyCountAcross(category, cs[1..]);
    }
  }

  // ---------------------------------------------------------------------------
  // Sampling
  // ---------------------------------------------------------------------------

  function Min(a: int, b: int): int {
    if a <= b then a else b
  }

  /**
   * `sample(n)`: `random.sample(questions, min(n, len(questions)))`. The random
   * draw is the parameter `draw`, an ordering of all positions; the sample is
   * its first `k` entries. A negative size makes `random.sample` raise.
   */
  function Sample(qs: seq<Question>, n: int, draw: seq<nat>): (r: Result<seq<Question>, string>)
    requires IsPermutation(draw, |qs|)
    ensures n < 0 <==> r.Err?
    ensures r.Ok? ==> |r.value| == Min(n, |qs|)
    ensures r.Ok? ==> forall i :: 0 <= i < |r.value| ==> i < |draw| && draw[i] < |qs| && r.value[i] == qs[draw[i]]
  {
    PermutationLength(draw, |qs|);
    PermutationBounded(draw, |qs|);
    if n < 0 then Err("Sample larger than population or is negative")
    else Ok(seq(Min(n, |qs|), i requires 0 <= i < Min(n, |qs|) => qs[draw[i]]))
  }

  lemma PermutationBounded(order: seq<nat>, n: nat)
    requires IsPermutation(order, n)
    ensures forall i :: 0 <= i < |order| ==> order[i] < n
  {
    forall i | 0 <= i < |order| ensures order[i] < n {
      assert order[i] in multiset(order);
      assert order[i] in multiset(Iota(n));
    }
  }

  lemma {:induction false} IotaOnce(n: nat, x: nat)
    ensures multiset(Iota(n))[x] == if x < n then 1 else 0
  {
    if n > 0 {
      IotaOnce(n - 1, x);
      var prev := Iota(n - 1);
      var last: seq<nat> := [n - 1];
      assert Iota(n) == prev + last;
      assert multiset(Iota(n)) == multiset(prev) + multiset(last);
      assert multiset(last)[x] == if x == n - 1 then 1 else 0;
    }
  }

  /** Two equal entries at different positions make an element occur twice. */
  lemma TwiceCounted(s: seq<nat>, i: nat, j: nat)
    requires i < j < |s| && s[i] == s[j]
    ensures multiset(s)[s[i]] >= 2
  {
    assert s == s[..i] + [s[i]] + s[i + 1..j] + [s[j]] + s[j + 1..];
  }

  /** A permutation lists no position twice. */
  lemma PermutationDistinct(order: seq<nat>, n: nat, i: nat, j: nat)
    requires IsPermutation(order, n)
    requires i < j < |order|
    ensures order[i] != order[j]
  {
    if order[i] == order[j] {
      TwiceCounted(order, i, j);
      IotaOnce(n, order[i]);
      assert false;
    }
  }

  predicate DistinctIds(qs: seq<Question>) {
    forall i, j :: 0 <= i < j < |qs| ==> qs[i].id != qs[j].id
  }

  /** A sample of a dataset with distinct ids has distinct ids: no question is drawn twice. */
  lemma SampleDistinct(qs: seq<Question>, n: int, draw: seq<nat>)
    requires IsPermutation(draw, |qs|)
    requires DistinctIds(qs)
    requires Sample(qs, n, draw).Ok?
    ensures DistinctIds(Sample(qs, n, draw).value)
  {
    var s := Sample(qs, n, draw).value;
    PermutationLength(draw, |qs|);
    assert |s| <= |draw|;
    forall i, j | 0 <= i < j < |s| ensures s[i].id != s[j].id {
      PermutationDistinct(draw, |qs|, i, j);
      if draw[i] < draw[j] {
        assert qs[draw[i]].id != qs[draw[j]].id;
      } else {
        assert qs[draw[j]].id != qs[draw[i]].id;
      }
    }
  }

  // ---------------------------------------------------------------------------
  // Question ids
  // ---------------------------------------------------------------------------

  /** The id prefix the dataset uses for each category. */
  function Prefix(c: Category): (r: string)
    ensures '_' !in r
  {
    match c
    case Technical => "tech"
    case Business => "biz"
    case Scientific => "sci"
    case Historical => "hist"
    case Comparative => "comp"
    case Emerging => "emrg"
    case Synthesis => "synth"
    case Validation => "val"
  }

  /** A three-digit, zero-padded number. */
  function Pad3(k: nat): (r: string)
    requires k < 1000
    ensures |r| == 3
  {
    [DigitChar(k / 10 / 10), DigitChar(k / 10 % 10), DigitChar(k % 10)]
  }

  /** "tech_001", "biz_020", ...: the category prefix and the 1-based number within the category. */
  function QuestionId(c: Category, k: nat): string
    requires k < 1000
  {
    Prefix(c) + "_" + Pad3(k)
  }

  lemma DigitRoundTrip(d: nat)
    requires d < 10
    ensures DigitValue(DigitChar(d)) == d
  {
  }

  lemma Pad3Injective(a: nat, b: nat)
    requires a < 1000 && b < 1000 && Pad3(a) == Pad3(b)
    ensures a == b
  {
    var x, y := Pad3(a), Pad3(b);
    DigitRoundTrip(a / 10 / 10);
    DigitRoundTrip(b / 10 / 10);
    DigitRoundTrip(a / 10 % 10);
    DigitRoundTrip(b / 10 % 10);
    DigitRoundTrip(a % 10);
    DigitRoundTrip(b % 10);
    assert DigitValue(x[0]) == DigitValue(y[0]);
    assert DigitValue(x[1]) == DigitValue(y[1]);
    assert DigitValue(x[2]) == DigitValue(y[2]);
    TensSplit(a / 10, b / 10);
    TensSplit(a, b);
  }

  /** A number is fixed by its last decimal digit and the number above it. */
  lemma TensSplit(a: nat, b: nat)
    requires a / 10 == b / 10 && a % 10 == b % 10
    ensures a == b
  {
  }

  lemma PrefixInjective(c1: Category, c2: Category)
    requires Prefix(c1) == Prefix(c2)
    ensures c1 == c2
  {
  }

  /** An id names its category and number: different (category, number) pairs get different ids. */
  lemma QuestionIdInjective(c1: Category, k1: nat, c2: Category, k2: nat)
    requires k1 < 1000 && k2 < 1000
    requires QuestionId(c1, k1) == QuestionId(c2, k2)
    ensures c1 == c2 && k1 == k2
  {
    var id := QuestionId(c1, k1);
    var p1, p2 := Prefix(c1), Prefix(c2);
    assert |p1| == |p2|;
    assert p1 == id[..|p1|] == p2;
    assert Pad3(k1) == id[|p1| + 1..] == Pad3(k2);
    PrefixInjective(c1, c2);
    Pad3Injective(k1, k2);
  }

  /** A question entry as written in the dataset, before its id and category are attached. */
  datatype Entry = Entry(query: string, difficulty: string, expectedSources: int, notes: string)

  /** The questions of one category block: entry i gets number i + 1. */
  function Block(c: Category, entries: seq<Entry>): (qs: seq<Question>)
    requires |entries| < 1000
    ensures |qs| == |entries|
    ensures forall i :: 0 <= i < |qs| ==> qs[i].category == c
  {
    seq(|entries|, i requires 0 <= i < |entries| =>
      Question(QuestionId(c, i + 1), entries[i].query, c, entries[i].difficulty,
               entries[i].expectedSources, entries[i].notes))
  }

  /** The id has the `prefix_NNN` form of the question's own category. */
  ghost predicate NumberedId(q: Question) {
    exists k: nat :: k < 1000 && q.id == QuestionId(q.category, k)
  }

  ghost predicate WellNumbered(qs: seq<Question>) {
    forall i :: 0 <= i < |qs| ==> NumberedId(qs[i])
  }

  lemma BlockNumbered(c: Category, entries: seq<Entry>)
    requires |entries| < 999
    ensures DistinctIds(Block(c, entries)) && WellNumbered(Block(c, entries))
  {
    BlockDistinct(c, entries);
    BlockWellNumbered(c, entries);
  }

  lemma BlockDistinct(c: Category, entries: seq<Entry>)
    requires |entries| < 999
    ensures DistinctIds(Block(c, entries))
  {
    BlockIds(c, entries);
    var qs := Block(c, entries);
    forall i, j | 0 <= i < j < |qs| ensures qs[i].id != qs[j].id {
      var a, b := qs[i].id, qs[j].id;
      assert a == QuestionId(c, i + 1) && b == QuestionId(c, j + 1);
      NumbersDiffer(c, i + 1, j + 1);
    }
  }

  lemma NumbersDiffer(c: Category, k1: nat, k2: nat)
    requires k1 < 1000 && k2 < 1000 && k1 != k2
    ensures QuestionId(c, k1) != QuestionId(c, k2)
  {
    if QuestionId(c, k1) == QuestionId(c, k2) {
      QuestionIdInjective(c, k1, c, k2);
    }
  }

  lemma BlockWellNumbered(c: Category, entries: seq<Entry>)
    requires |entries| < 999
    ensures WellNumbered(Block(c, entries))
  {
    var qs := Block(c, entries);
    forall i | 0 <= i < |qs| ensures NumberedId(qs[i]) {
      QuestionNumbered(c, entries, i);
    }
  }

  /** Question `i` of a block carries the number `i + 1`. */
  lemma QuestionNumbered(c: Category, entries: seq<Entry>, i: nat)
    requires |entries| < 999 && i < |entries|
    ensures NumberedId(Block(c, entries)[i])
  {
    var q := Block(c, entries)[i];
    assert q.category == c;
    assert q.id == QuestionId(c, i + 1);
    NumberedWitness(q, i + 1);
  }

  lemma NumberedWitness(q: Question, k: nat)
    requires k < 1000 && q.id == QuestionId(q.category, k)
    ensures NumberedId(q)
  {
  }

  lemma BlockIds(c: Category, entries: seq<Entry>)
    requires |entries| < 999
    ensures forall i :: 0 <= i < |entries| ==> Block(c, entries)[i].id == QuestionId(c, i + 1)
  {
  }

  /** Concatenating blocks of disjoint categories keeps the ids distinct. */
  lemma AppendDistinct(xs: seq<Question>, ys: seq<Question>, cx: set<Category>, cy: set<Category>)
    requires DistinctIds(xs) && DistinctIds(ys) && WellNumbered(xs) && WellNumbered(ys)
    requires forall i :: 0 <= i < |xs| ==> xs[i].category in cx
    requires forall i :: 0 <= i < |ys| ==> ys[i].category in cy
    requires cx !! cy
    ensures DistinctIds(xs + ys) && WellNumbered(xs + ys)
  {
    var zs := xs + ys;
    forall i, j | 0 <= i < j < |zs| ensures zs[i].id != zs[j].id {
      if i < |xs| && j >= |xs| {
        var a, b := xs[i], ys[j - |xs|];
        assert a.category != b.category;
        assert NumberedId(a) && NumberedId(b);
        var ka: nat :| ka < 1000 && a.id == QuestionId(a.category, ka);
        var kb: nat :| kb < 1000 && b.id == QuestionId(b.category, kb);
        if a.id == b.id {
          QuestionIdInjective(a.category, ka, b.category, kb);
        }
      } else if j < |xs| {
        assert zs[i] == xs[i] && zs[j] == xs[j];
      } else {
        assert zs[i] == ys[i - |xs|] && zs[j] == ys[j - |xs|];
      }
    }
    forall i | 0 <= i < |zs| ensures NumberedId(zs[i]) {
      if i < |xs| { assert zs[i] == xs[i]; } else { assert zs[i] == ys[i - |xs|]; }
    }
  }

  /** The whole dataset: one block per category, in the order `cs` lists them. */
  function Blocks(cs: seq<Category>, entries: Category -> seq<Entry>): (qs: seq<Question>)
    requires forall c :: |entries(c)| < 999
  {
    FlatMap(cs, (c: Category) => Block(c, entries(c)))
  }

  /** With no category listed twice, the ids of the whole dataset are distinct. */
  lemma {:induction false} BlocksDistinct(cs: seq<Category>, entries: Category -> seq<Entry>)
    requires forall c :: |entries(c)| < 999
    requires forall i, j :: 0 <= i < j < |cs| ==> cs[i] != cs[j]
    ensures DistinctIds(Blocks(cs, entries)) && WellNumbered(Blocks(cs, entries))
    ensures forall i :: 0 <= i < |Blocks(cs, entries)| ==> Blocks(cs, entries)[i].category in cs
    decreases |cs|
  {
    if |cs| > 0 {
      var head := Block(cs[0], entries(cs[0]));
      var tail := Blocks(cs[1..], entries);
      BlockNumbered(cs[0], entries(cs[0]));
      BlocksDistinct(cs[1..], entries);
      assert cs[0] !in cs[1..];
      AppendDistinct(head, tail, {cs[0]}, set c | c in cs[1..]);
      assert Blocks(cs, entries) == head + tail;
      forall i | 0 <= i < |head + tail| ensures (head + tail)[i].category in cs {
        if i >= |head| { assert (head + tail)[i] == tail[i - |head|]; }
      }
    }
  }

  /** A property every entry's difficulty has carries over to every question of the dataset. */
  lemma {:induction false} BlocksDifficulties(cs: seq<Category>, entries: Category -> seq<Entry>, allowed: set<string>)
    requires forall c :: |entries(c)| < 999
    requires forall c, i :: 0 <= i < |entries(c)| ==> entries(c)[i].difficulty in allowed
    ensures forall q :: q in Blocks(cs, entries) ==> q.difficulty in allowed
    decreases |cs|
  {
    if |cs| > 0 {
      var head := Block(cs[0], entries(cs[0]));
      var tail := Blocks(cs[1..], entries);
      BlocksDifficulties(cs[1..], entries, allowed);
      assert Blocks(cs, entries) == head + tail;
      forall q | q in head ensures q.difficulty in allowed {
        var i :| 0 <= i < |head| && head[i] == q;
        assert q.difficulty == entries(cs[0])[i].difficulty;
      }
    }
  }

  /** Filtering the whole dataset by a listed category gives exactly that category's block. */
  lemma {:induction false} BlocksByCategory(cs: seq<Category>, entries: Category -> seq<Entry>, c: Category)
    requires forall c :: |entries(c)| < 999
    requires forall i, j :: 0 <= i < j < |cs| ==> cs[i] != cs[j]
    ensures ByCategory(Blocks(cs, entries), c) == if c in cs then Block(c, entries(c)) else []
    decreases |cs|
  {
    if |cs| > 0 {
      var head := Block(cs[0], entries(cs[0]));
      var tail := Blocks(cs[1..], entries);
      assert Blocks(cs, entries) == head + tail;
      OfCategoryAppend(head, tail, (q: Question) => q.category, c);
      OfCategoryUniform(head, (q: Question) => q.category, c, cs[0]);
      BlocksByCategory(cs[1..], entries, c);
      if c == cs[0] {
        assert c !in cs[1..];
      }
    }
  }

  /** With one block per category, filtering by any category gives exactly its block. */
  lemma AllBlocksByCategory(entries: Category -> seq<Entry>, c: Category)
    requires forall c :: |entries(c)| < 999
    ensures ByCategory(Blocks(AllCategories, entries), c) == Block(c, entries(c))
  {
    assert forall i, j :: 0 <= i < j < |AllCategories| ==> AllCategories[i] != AllCategories[j];
    BlocksByCategory(AllCategories, entries, c);
    AllCategoriesOnce(c);
  }

  // ---------------------------------------------------------------------------
  // Export path check
  // ---------------------------------------------------------------------------

  /** An absolute path as its list of components below "/". */
  type Path = seq<string>

  /** Applies path components to a directory: "." and "" stay, ".." goes up (not above "/"), others go down. */
  function Walk(dir: Path, parts: seq<string>): (r: Path)
    requires Normal(dir)
    ensures Normal(r)
    decreases |parts|
  {
    if |parts| == 0 then dir
    else if parts[0] == "" || parts[0] == "." then Walk(dir, parts[1..])
    else if parts[0] == ".." then Walk(if |dir| == 0 then [] else dir[..|dir| - 1], parts[1..])
    else Walk(dir + [parts[0]], parts[1..])
  }

  /** A normalised path: no empty, "." or ".." component. */
  predicate Normal(p: Path) {
    forall i :: 0 <= i < |p| ==> p[i] != "" && p[i] != "." && p[i] != ".."
  }

  /**
   * `Path(output_path).resolve()` without symbolic links: an absolute path
   * starts from "/", a relative one from the working directory.
   */
  function Resolve(cwd: Path, path: string): (r: Path)
    requires Normal(cwd)
    ensures Normal(r)
  {
    Walk(StartDir(cwd, path), Split(path, '/'))
  }

  /** Where resolution starts: "/" for an absolute path, the working directory otherwise. */
  function StartDir(cwd: Path, path: string): (r: Path)
    requires Normal(cwd)
    ensures Normal(r)
  {
    if |path| > 0 && path[0] == '/' then [] else cwd
  }

  /** The directories an export may write into. */
  function AllowedRoots(cwd: Path): seq<Path> {
    [cwd, cwd + ["research"], ["tmp"], ["private", "var", "folders"]]
  }

  /** `is_relative_to`: a component-wise prefix, so "/tmpfoo" is not under "/tmp". */
  predicate IsRelativeTo(p: Path, root: Path) {
    root <= p
  }

  predicate Allowed(cwd: Path, p: Path) {
    exists i :: 0 <= i < |AllowedRoots(cwd)| && IsRelativeTo(p, AllowedRoots(cwd)[i])
  }

  /** The path rendered back as text, for the error message. */
  function Render(p: Path): string {
    "/" + Join(p, "/")
  }

  /** The path check of `export_dataset_to_json`: the resolved path, or the ValueError's message. */
  function CheckExportPath(cwd: Path, path: string): (r: Result<Path, string>)
    requires Normal(cwd)
    ensures r.Ok? ==> r.value == Resolve(cwd, path) && Normal(r.value)
    ensures r.Ok? <==> Allowed(cwd, Resolve(cwd, path))
  {
    var p := Resolve(cwd, path);
    if Allowed(cwd, p) then Ok(p)
    else Err("Output path must be within project directory. Got: " + Render(p))
  }

  /** Anything written inside the working directory is accepted, however the path is spelled. */
  lemma InsideCwdAccepted(cwd: Path, path: string)
    requires Normal(cwd)
    requires cwd <= Resolve(cwd, path)
    ensures CheckExportPath(cwd, path).Ok?
  {
    assert AllowedRoots(cwd)[0] == cwd;
  }

  /** The two paths the export tests refuse. */
  const SystemPath: string := "/usr/local/malicious.json"
  const TraversalPath: string := "../../etc/passwd"

  /** A path of four slash-free components splits back into them. */
  lemma SplitFour(a: string, b: string, c: string, d: string)
    requires '/' !in a && '/' !in b && '/' !in c && '/' !in d
    ensures Split((a + "/") + ((b + "/") + ((c + "/") + d)), '/') == [a, b, c, d]
  {
    var parts := [a, b, c, d];
    assert Join(parts[3..], "/") == d;
    assert Join(parts[2..], "/") == (c + "/") + d;
    assert Join(parts[1..], "/") == (b + "/") + ((c + "/") + d);
    SplitJoin(parts, '/');
  }

  lemma SystemPathText()
    ensures ("" + "/") + (("usr" + "/") + (("local" + "/") + "malicious.json")) == SystemPath
  {
  }

  lemma TraversalPathText()
    ensures (".." + "/") + ((".." + "/") + (("etc" + "/") + "passwd")) == TraversalPath
  {
  }

  lemma SystemPathParts()
    ensures Split(SystemPath, '/') == ["", "usr", "local", "malicious.json"]
  {
    SplitFour("", "usr", "local", "malicious.json");
    SystemPathText();
  }

  lemma TraversalParts()
    ensures Split(TraversalPath, '/') == ["..", "..", "etc", "passwd"]
  {
    SplitFour("..", "..", "etc", "passwd");
    TraversalPathText();
  }

  lemma ResolveSteps(cwd: Path, path: string)
    requires Normal(cwd)
    ensures Resolve(cwd, path) == Walk(StartDir(cwd, path), Split(path, '/'))
  {
  }

  lemma SystemPathStart(cwd: Path)
    requires Normal(cwd)
    ensures StartDir(cwd, SystemPath) == []
  {
  }

  lemma TraversalStart(cwd: Path)
    requires Normal(cwd)
    ensures StartDir(cwd, TraversalPath) == cwd
  {
  }

  lemma SystemPathWalk()
    ensures Walk([], ["", "usr", "local", "malicious.json"]) == ["usr", "local", "malicious.json"]
  {
  }

  lemma TraversalWalk(cwd: Path)
    requires Normal(cwd) && |cwd| == 3
    ensures Walk(cwd, ["..", "..", "etc", "passwd"]) == [cwd[0], "etc", "passwd"]
  {
    var parts := ["..", "..", "etc", "passwd"];
    assert Walk(cwd, parts) == Walk(cwd[..2], parts[1..]);
    assert Walk(cwd[..2], parts[1..]) == Walk(cwd[..1], parts[2..]);
    assert Walk(cwd[..1], parts[2..]) == Walk(cwd[..1] + ["etc"], parts[3..]);
    assert Walk(cwd[..1] + ["etc"], parts[3..]) == Walk(cwd[..1] + ["etc"] + ["passwd"], []);
  }

  lemma ResolveSystemPath(cwd: Path)
    requires Normal(cwd)
    ensures Resolve(cwd, SystemPath) == ["usr", "local", "malicious.json"]
  {
    ResolveSteps(cwd, SystemPath);
    SystemPathStart(cwd);
    SystemPathParts();
    SystemPathWalk();
  }

  lemma ResolveTraversal(cwd: Path)
    requires Normal(cwd) && |cwd| == 3
    ensures Resolve(cwd, TraversalPath) == [cwd[0], "etc", "passwd"]
  {
    ResolveSteps(cwd, TraversalPath);
    TraversalStart(cwd);
    TraversalParts();
    TraversalWalk(cwd);
  }

  /** No allowed root is a prefix of the resolved path, so the check refuses it. */
  lemma OutsideRootsRejected(cwd: Path, path: string, p: Path)
    requires Normal(cwd) && Resolve(cwd, path) == p
    requires !IsRelativeTo(p, cwd) && !IsRelativeTo(p, cwd + ["research"])
    requires !IsRelativeTo(p, ["tmp"]) && !IsRelativeTo(p, ["private", "var", "folders"])
    ensures CheckExportPath(cwd, path).Err?
  {
    var roots := AllowedRoots(cwd);
    assert !Allowed(cwd, p) by {
      forall i | 0 <= i < |roots| ensures !IsRelativeTo(p, roots[i]) {
      }
    }
  }

  /** An absolute path under /usr/local is refused unless the working directory is itself above it. */
  lemma SystemPathRejected(cwd: Path)
    requires Normal(cwd) && |cwd| > 0 && cwd[0] != "usr"
    ensures CheckExportPath(cwd, SystemPath).Err?
  {
    ResolveSystemPath(cwd);
    var p: Path := ["usr", "local", "malicious.json"];
    assert !IsRelativeTo(p, cwd) by { assert cwd[0] != p[0]; }
    assert !IsRelativeTo(p, cwd + ["research"]) by { assert (cwd + ["research"])[0] != p[0]; }
    OutsideRootsRejected(cwd, SystemPath, p);
  }

  /**
   * Climbing two levels out of a three-level working directory with ".." is
   * refused, unless the directory sits in /tmp or the path lands back inside it.
   */
  lemma ParentTraversalRejected(cwd: Path)
    requires Normal(cwd) && |cwd| == 3 && cwd[0] != "tmp" && cwd[1] != "etc"
    ensures CheckExportPath(cwd, TraversalPath).Err?
  {
    ResolveTraversal(cwd);
    var p: Path := [cwd[0], "etc", "passwd"];
    assert !IsRelativeTo(p, cwd) by { assert cwd[1] != p[1]; }
    assert !IsRelativeTo(p, cwd + ["research"]) by { assert |cwd + ["research"]| > |p|; }
    assert !IsRelativeTo(p, ["tmp"]) by { assert p[0] != "tmp"; }
    assert !IsRelativeTo(p, ["private", "var", "folders"]) by { assert p[1] != "var"; }
    OutsideRootsRejected(cwd, TraversalPath, p);
  }

  /** The file the module's command line exports to: the first argument, or the dataset's default name. */
  function ExportTarget(argv: seq<string>, default: string): (r: string)
    ensures |argv| > 1 ==> r == argv[1]
    ensures |argv| <= 1 ==> r == default
  {
    if |argv| > 1 then argv[1] else default
  }

  const TestDatasetDefaultPath: string := "research/test_dataset.json"
  const EvaluationDatasetDefaultPath: string := "research/evaluation_dataset.json"

  /** The command line's exit status: 1 when the path is refused, 0 after a successful export. */
  function ExportExitCode(cwd: Path, argv: seq<string>, default: string): (code: int)
    requires Normal(cwd)
    ensures code == 0 <==> Allowed(cwd, Resolve(cwd, ExportTarget(argv, default)))
    ensures code == 0 || code == 1
  {
    if CheckExportPath(cwd, ExportTarget(argv, default)).Ok? then 0 else 1
  }
}
