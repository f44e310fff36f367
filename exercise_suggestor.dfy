/**
 * The local logic of backend/api/bot/RAG/llm_excercise_suggestor.py: which
 * catalogue entries are offered to the ranking model, how its comma-separated
 * reply is read back, how candidate numbers are paired with exercise texts and
 * metadata for the deciding model, and what is returned for the final choice.
 * The two model replies, the random source of the shuffle and the exercise
 * files are parameters.
 */
module ExerciseSuggestor {
  import opened Wrappers
  import Strings

  /**
   * One entry of the exercise catalogue: its "Exercise Number" and the rest of
   * its fields ("Task", "Stage", "Circumstance", "Benefits", "Why", ...).
   */
  datatype Exercise = Exercise(number: string, fields: map<string, string>)

  /** The entries of `entries`, in order, whose number is (`present`) or is not (`!present`) listed in `numbers`. */
  function Where(entries: seq<Exercise>, numbers: seq<string>, present: bool): (r: seq<Exercise>)
    ensures |r| <= |entries|
    ensures forall e :: e in r <==> e in entries && (e.number in numbers) == present
  {
    if entries == [] then []
    else
      var rest := Where(entries[1..], numbers, present);
      assert forall e :: e in entries <==> e == entries[0] || e in entries[1..];
      if (entries[0].number in numbers) == present then [entries[0]] + rest else rest
  }

  /** Filtering a concatenation filters each part: entries keep their order and multiplicity. */
  lemma {:induction false} WhereAppend(a: seq<Exercise>, b: seq<Exercise>, numbers: seq<string>, present: bool)
    ensures Where(a + b, numbers, present) == Where(a, numbers, present) + Where(b, numbers, present)
  {
    if a == [] {
      assert a + b == b;
    } else {
      assert (a + b)[0] == a[0];
      assert (a + b)[1..] == a[1..] + b;
      WhereAppend(a[1..], b, numbers, present);
    }
  }

  /** A single entry is kept exactly when its number passes. */
  lemma WhereOne(e: Exercise, numbers: seq<string>, present: bool)
    ensures Where([e], numbers, present) == if (e.number in numbers) == present then [e] else []
  {
    assert [e][1..] == [];
  }

  /** When every entry passes, nothing is dropped and the order is kept. */
  lemma {:induction false} WhereAll(entries: seq<Exercise>, numbers: seq<string>, present: bool)
    requires forall i :: 0 <= i < |entries| ==> (entries[i].number in numbers) == present
    ensures Where(entries, numbers, present) == entries
  {
    if entries != [] {
      WhereAll(entries[1..], numbers, present);
      assert [entries[0]] + entries[1..] == entries;
    }
  }

  /**
   * The entries offered to the ranking model: the day-filtered entries when a day
   * filter is given, else the catalogue, without the done exercises; if that leaves
   * nothing, the catalogue without the done exercises.
   */
  function Available(catalogue: seq<Exercise>, done: seq<string>, dayFiltered: Option<seq<Exercise>>): (r: seq<Exercise>)
    ensures forall e :: e in r ==> e.number !in done
    ensures r == [] <==>
              && (forall e :: e in catalogue ==> e.number in done)
              && (dayFiltered.Some? ==> forall e :: e in dayFiltered.value ==> e.number in done)
    ensures dayFiltered.Some? && (exists e :: e in dayFiltered.value && e.number !in done) ==>
              forall e :: e in r <==> e in dayFiltered.value && e.number !in done
    ensures (dayFiltered.None? || forall e :: e in dayFiltered.value ==> e.number in done) ==>
              forall e :: e in r <==> e in catalogue && e.number !in done
  {
    var first := match dayFiltered
      case Some(day) => Where(day, done, false)
      case None => Where(catalogue, done, false);
    if first == [] then
      var r := Where(catalogue, done, false);
      assert r != [] ==> r[0] in r;
      assert dayFiltered.Some? ==> forall e :: e in dayFiltered.value ==> e.number in done;
      r
    else
      assert first[0] in first;
      first
  }

  /**
   * `random.shuffle`: for `i` from the last position down to 1, swap position `i`
   * with a position drawn below `i + 1`.  Only the order changes.
   */
  method Shuffle<T>(a: array<T>, randBelow: nat -> nat)
    requires forall n: nat :: 0 < n ==> randBelow(n) < n
    modifies a
    ensures multiset(a[..]) == multiset(old(a[..]))
  {
    var i := a.Length;
    while i > 1
      invariant 0 <= i <= a.Length
      invariant multiset(a[..]) == multiset(old(a[..]))
    {
      i := i - 1;
      var j := randBelow(i + 1);
      a[i], a[j] := a[j], a[i];
    }
  }

  /** The candidate numbers read from the ranking model's reply: split on ',' and each piece stripped. */
  function ParseCandidates(reply: string): (r: seq<string>)
    ensures |r| == |Strings.Split(reply, ',')| && |r| >= 1
    ensures forall i :: 0 <= i < |r| ==> r[i] == Strings.Strip(Strings.Split(reply, ',')[i])
    ensures forall i :: 0 <= i < |r| ==> Strings.Unpadded(r[i]) && ',' !in r[i]
  {
    var pieces := Strings.Split(reply, ',');
    var r := seq(|pieces|, i requires 0 <= i < |pieces| => Strings.Strip(pieces[i]));
    forall i | 0 <= i < |r|
      ensures ',' !in r[i]
    {
      if ',' in r[i] {
        Strings.StripKeeps(pieces[i], ',');
      }
    }
    r
  }

  /** A reply that lists stripped, comma-free numbers separated by ',' is read back as exactly those numbers. */
  lemma ParseCandidatesJoin(numbers: seq<string>)
    requires |numbers| >= 1
    requires forall i :: 0 <= i < |numbers| ==> Strings.Unpadded(numbers[i]) && ',' !in numbers[i]
    ensures ParseCandidates(Strings.Join(numbers, ",")) == numbers
  {
    Strings.SplitJoin(numbers, ',');
    var r := ParseCandidates(Strings.Join(numbers, ","));
    forall i | 0 <= i < |numbers|
      ensures r[i] == numbers[i]
    {
      Strings.StripUnpadded(numbers[i]);
    }
  }

  /**
   * What `get_exercise_content` returns for `ids`: the text of each exercise whose
   * file exists, in order; an id without a file contributes nothing.
   */
  function ContentsOf(ids: seq<string>, files: map<string, string>): (r: seq<string>)
    ensures |r| <= |ids|
  {
    if ids == [] then []
    else
      var last := ids[|ids| - 1];
      ContentsOf(ids[..|ids| - 1], files) + (if last in files then [files[last]] else [])
  }

  /** `get_exercise_content`: the loop that reads each file and skips the missing ones. */
  method GetExerciseContent(ids: seq<string>, files: map<string, string>) returns (contents: seq<string>)
    ensures contents == ContentsOf(ids, files)
  {
    contents := [];
    for k := 0 to |ids|
      invariant contents == ContentsOf(ids[..k], files)
    {
      assert ids[..k + 1][..k] == ids[..k];
      var file := ids[k];
      if file in files {
        contents := contents + [files[file]];
      }
    }
    assert ids[..|ids|] == ids;
  }

  /** No text is lost exactly when every id has a file. */
  lemma {:induction false} ContentsOfComplete(ids: seq<string>, files: map<string, string>)
    ensures |ContentsOf(ids, files)| == |ids| <==> forall i :: 0 <= i < |ids| ==> ids[i] in files
  {
    if ids != [] {
      var front := ids[..|ids| - 1];
      ContentsOfComplete(front, files);
      if |ContentsOf(ids, files)| == |ids| {
        forall i | 0 <= i < |ids|
          ensures ids[i] in files
        {
          if i < |front| {
            assert front[i] == ids[i];
          }
        }
      } else {
        assert forall i :: 0 <= i < |front| ==> front[i] == ids[i];
      }
    }
  }

  /** When every id has a file, the i-th text is the i-th id's. */
  lemma {:induction false} ContentsOfAligned(ids: seq<string>, files: map<string, string>)
    requires forall i :: 0 <= i < |ids| ==> ids[i] in files
    ensures |ContentsOf(ids, files)| == |ids|
    ensures forall i :: 0 <= i < |ids| ==> ContentsOf(ids, files)[i] == files[ids[i]]
  {
    if ids != [] {
      var front := ids[..|ids| - 1];
      ContentsOfAligned(front, files);
      assert forall i :: 0 <= i < |front| ==> front[i] == ids[i];
    }
  }

  /** For one id the answer is its text or nothing. */
  lemma ContentsOfOne(id: string, files: map<string, string>)
    ensures ContentsOf([id], files) == if id in files then [files[id]] else []
  {
    assert [id][..0] == [];
  }

  /** The position of the first entry numbered `number`, as `next(...)` finds it. */
  function FindNumber(entries: seq<Exercise>, number: string): (r: Option<nat>)
    ensures r.Some? ==> r.value < |entries| && entries[r.value].number == number
    ensures r.Some? ==> forall k :: 0 <= k < r.value ==> entries[k].number != number
    ensures r.None? ==> forall k :: 0 <= k < |entries| ==> entries[k].number != number
  {
    if entries == [] then None
    else if entries[0].number == number then Some(0)
    else match FindNumber(entries[1..], number)
      case Some(k) => Some(k + 1)
      case None => None
  }

  /** The first entry numbered `number`, if any: `next(...)` without its default. */
  function Lookup(entries: seq<Exercise>, number: string): (r: Option<Exercise>)
    ensures r.Some? ==> r.value in entries && r.value.number == number
    ensures r.Some? ==> FindNumber(entries, number).Some? && r.value == entries[FindNumber(entries, number).value]
    ensures r.None? <==> forall k :: 0 <= k < |entries| ==> entries[k].number != number
  {
    match FindNumber(entries, number)
    case Some(k) => Some(entries[k])
    case None => None
  }

  /** `metadata.get(key, "")`, where a number without an entry has the metadata `{}`. */
  function Field(meta: Option<Exercise>, key: string): (v: string)
    ensures meta.Some? && key in meta.value.fields ==> v == meta.value.fields[key]
    ensures meta.None? || key !in meta.value.fields ==> v == ""
  {
    match meta
    case Some(e) => if key in e.fields then e.fields[key] else ""
    case None => ""
  }

  /** An entry whose number is not the one sought does not change the lookup. */
  lemma LookupSkips(x: Exercise, rest: seq<Exercise>, number: string)
    requires x.number != number
    ensures Lookup([x] + rest, number) == Lookup(rest, number)
  {
    assert ([x] + rest)[1..] == rest;
  }

  /**
   * Looking a candidate up among the catalogue entries kept for the candidates finds
   * the same entry as looking it up in the whole catalogue.
   */
  lemma {:induction false} WhereLookup(catalogue: seq<Exercise>, candidates: seq<string>, number: string)
    requires number in candidates
    ensures Lookup(Where(catalogue, candidates, true), number) == Lookup(catalogue, number)
  {
    if catalogue != [] {
      var x, rest := catalogue[0], catalogue[1..];
      WhereLookup(rest, candidates, number);
      assert catalogue == [x] + rest;
      if x.number != number {
        LookupSkips(x, rest, number);
        if x.number in candidates {
          LookupSkips(x, Where(rest, candidates, true), number);
        }
      }
    }
  }

  /** One dictionary of `exercise_data`. */
  datatype ExerciseEntry = ExerciseEntry(
    number: string,
    content: string,
    task: string,
    stage: string,
    circumstance: string,
    benefits: string,
    why: string)

  const ContentNotAvailable: string := "Content not available"

  /**
   * The `exercise_data` loop: one entry per candidate, in order.  The text is taken
   * by POSITION from `contents`, with the placeholder past its end; the metadata is
   * that of the first entry with the candidate's number, every missing field "".
   */
  method BuildExerciseData(candidates: seq<string>, contents: seq<string>, metadata: seq<Exercise>)
    returns (data: seq<ExerciseEntry>)
    ensures |data| == |candidates|
    ensures forall i :: 0 <= i < |data| ==>
              && data[i].number == candidates[i]
              && data[i].content == (if i < |contents| then contents[i] else ContentNotAvailable)
    ensures forall i :: 0 <= i < |data| ==>
              && data[i].task == Field(Lookup(metadata, candidates[i]), "Task")
              && data[i].stage == Field(Lookup(metadata, candidates[i]), "Stage")
              && data[i].circumstance == Field(Lookup(metadata, candidates[i]), "Circumstance")
              && data[i].benefits == Field(Lookup(metadata, candidates[i]), "Benefits")
              && data[i].why == Field(Lookup(metadata, candidates[i]), "Why")
  {
    data := [];
    for i := 0 to |candidates|
      invariant |data| == i
      invariant forall k :: 0 <= k < i ==>
                  && data[k].number == candidates[k]
                  && data[k].content == (if k < |contents| then contents[k] else ContentNotAvailable)
      invariant forall k :: 0 <= k < i ==>
                  && data[k].task == Field(Lookup(metadata, candidates[k]), "Task")
                  && data[k].stage == Field(Lookup(metadata, candidates[k]), "Stage")
                  && data[k].circumstance == Field(Lookup(metadata, candidates[k]), "Circumstance")
                  && data[k].benefits == Field(Lookup(metadata, candidates[k]), "Benefits")
                  && data[k].why == Field(Lookup(metadata, candidates[k]), "Why")
    {
      var number := candidates[i];
      var content := if i < |contents| then contents[i] else ContentNotAvailable;
      data := data + [ExerciseEntry(
        number, content,
        Field(Lookup(metadata, number), "Task"),
        Field(Lookup(metadata, number), "Stage"),
        Field(Lookup(metadata, number), "Circumstance"),
        Field(Lookup(metadata, number), "Benefits"),
        Field(Lookup(metadata, number), "Why"))];
    }
  }

  /**
   * What the deciding model is shown for `candidates`: one entry per candidate, in
   * order, with the text at the same position of `get_exercise_content`'s answer and
   * the fields of the first catalogue entry with that number.
   */
  ghost predicate DescribesCandidates(data: seq<ExerciseEntry>, candidates: seq<string>,
                                      catalogue: seq<Exercise>, files: map<string, string>)
  {
    var contents := ContentsOf(candidates, files);
    && |data| == |candidates|
    && forall i :: 0 <= i < |data| ==>
         && data[i].number == candidates[i]
         && data[i].content == (if i < |contents| then contents[i] else ContentNotAvailable)
         && data[i].task == Field(Lookup(catalogue, candidates[i]), "Task")
         && data[i].stage == Field(Lookup(catalogue, candidates[i]), "Stage")
         && data[i].circumstance == Field(Lookup(catalogue, candidates[i]), "Circumstance")
         && data[i].benefits == Field(Lookup(catalogue, candidates[i]), "Benefits")
         && data[i].why == Field(Lookup(catalogue, candidates[i]), "Why")
  }

  /** The first half of `suggest_exercises`: the offer, shuffled. */
  method OfferExercises(catalogue: seq<Exercise>, done: seq<string>, dayFiltered: Option<seq<Exercise>>,
                        randBelow: nat -> nat)
    returns (offered: seq<Exercise>)
    requires forall n: nat :: 0 < n ==> randBelow(n) < n
    ensures multiset(offered) == multiset(Available(catalogue, done, dayFiltered))
    ensures forall e :: e in offered ==> e.number !in done
  {
    var available := Available(catalogue, done, dayFiltered);
    var shuffled := new Exercise[|available|](i requires 0 <= i < |available| => available[i]);
    assert shuffled[..] == available;
    Shuffle(shuffled, randBelow);
    offered := shuffled[..];
    forall e | e in offered
      ensures e in available
    {
      assert e in multiset(offered);
    }
  }

  /** The middle of `suggest_exercises`: the ranking reply read back and described for the decider. */
  method AssembleExerciseData(reply: string, catalogue: seq<Exercise>, files: map<string, string>)
    returns (candidates: seq<string>, data: seq<ExerciseEntry>)
    ensures candidates == ParseCandidates(reply)
    ensures DescribesCandidates(data, candidates, catalogue, files)
  {
    candidates := ParseCandidates(reply);
    var contents := GetExerciseContent(candidates, files);
    var metadata := Where(catalogue, candidates, true);
    data := BuildExerciseData(candidates, contents, metadata);
    forall i | 0 <= i < |candidates|
      ensures Lookup(metadata, candidates[i]) == Lookup(catalogue, candidates[i])
    {
      WhereLookup(catalogue, candidates, candidates[i]);
    }
  }

  /**
   * `suggest_exercises`.  `rank` is the ranking model's reply to the prompt listing
   * the shuffled offer, `decide` the deciding model's reply to the prompt listing
   * `exercise_data`.  The result is the text of the chosen exercise (a list of at
   * most one) and its stripped number.
   */
  method SuggestExercises(
    catalogue: seq<Exercise>, done: seq<string>, dayFiltered: Option<seq<Exercise>>,
    files: map<string, string>, randBelow: nat -> nat,
    rank: seq<Exercise> -> string, decide: seq<ExerciseEntry> -> string)
    returns (chosenContent: seq<string>, chosen: string,
             ghost offered: seq<Exercise>, ghost data: seq<ExerciseEntry>)
    requires forall n: nat :: 0 < n ==> randBelow(n) < n
    ensures multiset(offered) == multiset(Available(catalogue, done, dayFiltered))
    ensures forall e :: e in offered ==> e.number !in done
    ensures DescribesCandidates(data, ParseCandidates(rank(offered)), catalogue, files)
    ensures chosen == Strings.Strip(decide(data))
    ensures chosenContent == if chosen in files then [files[chosen]] else []
  {
    var order := OfferExercises(catalogue, done, dayFiltered, randBelow);
    offered := order;
    var candidates, entries := AssembleExerciseData(rank(order), catalogue, files);
    data := entries;
    chosen := Strings.Strip(decide(entries));
    chosenContent := GetExerciseContent([chosen], files);
    ContentsOfOne(chosen, files);
  }

  /** When every candidate has a file, each entry carries its own exercise's text. */
  lemma DescribedContentAligned(data: seq<ExerciseEntry>, candidates: seq<string>,
                                catalogue: seq<Exercise>, files: map<string, string>)
    requires DescribesCandidates(data, candidates, catalogue, files)
    requires forall i :: 0 <= i < |candidates| ==> candidates[i] in files
    ensures forall i :: 0 <= i < |data| ==> data[i].content == files[data[i].number]
  {
    ContentsOfAligned(candidates, files);
  }

  /**
   * The pairing is by position, not by number: when the first of two candidates has
   * no file and the second has one, the entry for the first carries the second
   * exercise's text, and the entry for the second says it has none.
   */
  lemma MisalignedContent(data: seq<ExerciseEntry>, first: string, second: string, text: string,
                          catalogue: seq<Exercise>)
    requires first != second
    requires DescribesCandidates(data, [first, second], catalogue, map[second := text])
    ensures data[0].number == first && data[0].content == text
    ensures data[1].number == second && data[1].content == ContentNotAvailable
  {
    var files := map[second := text];
    assert [first, second][..1] == [first];
    ContentsOfOne(first, files);
    assert ContentsOf([first, second], files) == [text];
  }
}
