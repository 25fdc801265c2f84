/** "Keep both": a free name is always found. */
module FileMoveNames {
  import opened Common
  import opened FileMoveModel

  /** The value of a decimal numeral. */
  function ValueOf(digits: string): nat {
    if digits == "" then 0
    else
      var last := digits[|digits| - 1] as int - '0' as int;
      10 * ValueOf(digits[..|digits| - 1]) + if last >= 0 then last else 0
  }

  lemma {:induction false} DigitsValue(n: nat)
    ensures ValueOf(Digits(n)) == n && Digits(n) != ""
    decreases n
  {
    if n >= 10 {
      DigitsValue(n / 10);
      assert Digits(n)[..|Digits(n)| - 1] == Digits(n / 10);
    } else {
      assert Digits(n)[..0] == "";
    }
  }

  /** Different numbers give different names. */
  lemma NumberedDiffer(name: Name, folder: bool, a: nat, b: nat)
    requires Numbered(name, folder, a) == Numbered(name, folder, b)
    ensures a == b
  {
    var dot := if folder then |name| else DotOf(name, |name|);
    DotWithin(name, |name|);
    var head := name[..dot] + " (";
    var tail := ")" + name[dot..];
    assert Numbered(name, folder, a) == head + Digits(a) + tail;
    assert Numbered(name, folder, b) == head + Digits(b) + tail;
    Between(head, Digits(a), Digits(b), tail);
    DigitsValue(a);
    DigitsValue(b);
  }

  lemma {:induction false} DotWithin(name: Name, i: nat)
    requires i <= |name|
    ensures DotOf(name, i) <= |name|
    decreases i
  {
    if i > 1 && name[i - 1] != '.' {
      DotWithin(name, i - 1);
    }
  }

  lemma Between(head: string, a: string, b: string, tail: string)
    requires head + a + tail == head + b + tail
    ensures a == b
  {
    assert |a| == |b|;
    assert (head + a + tail)[|head|..|head| + |a|] == a;
    assert (head + b + tail)[|head|..|head| + |b|] == b;
  }

  lemma CandidateLast(destination: Path, folder: bool, n: nat)
    requires destination != []
    ensures var last := |destination| - 1;
            |Candidate(destination, folder, n)| == |destination| &&
            Candidate(destination, folder, n)[last] ==
            (if n == 0 then destination[last] else Numbered(destination[last], folder, n)) &&
            |Numbered(destination[last], folder, n)| > |destination[last]|
  {
    DotWithin(destination[|destination| - 1], |destination[|destination| - 1]|);
  }

  /** Numbered names are longer than the name itself, so the candidates are all different. */
  lemma CandidatesDiffer(destination: Path, folder: bool, a: nat, b: nat)
    requires destination != [] && Candidate(destination, folder, a) == Candidate(destination, folder, b)
    ensures a == b
  {
    CandidateLast(destination, folder, a);
    CandidateLast(destination, folder, b);
    if a != 0 && b != 0 {
      NumberedDiffer(destination[|destination| - 1], folder, a, b);
    }
  }

  function Candidates(destination: Path, folder: bool, n: nat, limit: nat): set<Path>
    requires n <= limit
  {
    set k | n <= k < limit :: Candidate(destination, folder, k)
  }

  lemma {:induction false} CandidateCount(destination: Path, folder: bool, n: nat, limit: nat)
    requires destination != [] && n <= limit
    ensures |Candidates(destination, folder, n, limit)| == limit - n
    decreases limit - n
  {
    hide Candidate;
    if n < limit {
      CandidateCount(destination, folder, n + 1, limit);
      var rest := Candidates(destination, folder, n + 1, limit);
      var first := Candidate(destination, folder, n);
      forall k | n + 1 <= k < limit ensures Candidate(destination, folder, k) != first {
        if Candidate(destination, folder, k) == first {
          CandidatesDiffer(destination, folder, n, k);
        }
      }
      assert Candidates(destination, folder, n, limit) == {first} + rest;
    } else {
      assert Candidates(destination, folder, n, limit) == {};
    }
  }

  lemma SubsetSize<T>(a: set<T>, b: set<T>)
    requires a <= b
    ensures |a| <= |b|
  {
    if a != {} {
      var x :| x in a;
      SubsetSize(a - {x}, b - {x});
    }
  }

  /** If the search has not ended, every candidate so far was taken. */
  lemma {:induction false} SearchFails(occupied: set<Path>, destination: Path, folder: bool, n: nat, limit: nat)
    requires n <= limit && Free(occupied, destination, folder, true, n, limit).Err?
    ensures forall k :: n <= k <= limit ==> Candidate(destination, folder, k) in occupied
    decreases limit - n
  {
    if n < limit {
      SearchFails(occupied, destination, folder, n + 1, limit);
    }
  }

  /** With "keep both" a destination is found within as many tries as there are names in the way, and it is free. */
  lemma KeepBothFinds(occupied: set<Path>, destination: Path, folder: bool)
    requires destination != []
    ensures Free(occupied, destination, folder, true, 0, |occupied|).Ok?
  {
    if Free(occupied, destination, folder, true, 0, |occupied|).Err? {
      SearchFails(occupied, destination, folder, 0, |occupied|);
      CandidateCount(destination, folder, 0, |occupied| + 1);
      SubsetSize(Candidates(destination, folder, 0, |occupied| + 1), occupied);
    }
  }
}
