/** Values that several models share: optional values, results, and the text rules of the contracts package. */
module Common {

  datatype Option<+T> = None | Some(value: T)

  /** A value, or the error the source throws. */
  datatype Result<+T, +E> = Ok(value: T) | Err(error: E) {
    predicate IsFailure() {
      Err?
    }

    function PropagateFailure<U>(): Result<U, E>
      requires Err?
    {
      Err(error)
    }

    function Extract(): T
      requires Ok?
    {
      value
    }
  }
}

/** JavaScript strings as sequences of UTF-16 code units, and the `trim().min(1).max(n)` rule of the schemas. */
module Texts {

  /** White space and line terminators, as `String.prototype.trim` removes them. */
  predicate IsSpace(c: char) {
    var u := c as int;
    9 <= u <= 13 || u == 0x20 || u == 0xA0 || u == 0x1680 || 0x2000 <= u <= 0x200A ||
    u == 0x2028 || u == 0x2029 || u == 0x202F || u == 0x205F || u == 0x3000 || u == 0xFEFF
  }

  function TrimStart(text: string): string {
    if text != "" && IsSpace(text[0]) then TrimStart(text[1..]) else text
  }

  function TrimEnd(text: string): string {
    if text != "" && IsSpace(text[|text| - 1]) then TrimEnd(text[..|text| - 1]) else text
  }

  function Trim(text: string): string {
    TrimEnd(TrimStart(text))
  }

  /** What `z.string().trim().min(1).max(limit)` accepts. */
  predicate Accepted(text: string, limit: nat) {
    1 <= |Trim(text)| <= limit
  }

  /** Trimming the end of a text whose first part ends in no white space trims the second part only. */
  lemma {:induction false} TrimEndAppend(first: string, second: string)
    requires first != "" && !IsSpace(first[|first| - 1])
    ensures TrimEnd(first + second) == first + TrimEnd(second)
  {
    var text := first + second;
    if second == "" {
      assert text == first;
    } else {
      assert text[|text| - 1] == second[|second| - 1];
      assert text[..|text| - 1] == first + second[..|second| - 1];
      if IsSpace(second[|second| - 1]) {
        TrimEndAppend(first, second[..|second| - 1]);
      }
    }
  }
}
