/** The count-to-list form: the "Tạo" button turns the typed count n into 1, 2, …, n,
    or shows one error message. */
module NumberInput {
  import opened KotlinText

  const InvalidInput: string := "Dữ liệu bạn nhập không hợp lệ"

  /** (1..n).toList() */
  function UpTo(n: nat): (r: seq<int>)
    ensures |r| == n
    ensures forall i :: 0 <= i < n ==> r[i] == i + 1
  {
    seq(n, i => i + 1)
  }

  /** The list counts up from 1 in steps of one, so it is strictly increasing and holds
      every number from 1 to n. */
  lemma UpToContents(n: nat)
    ensures forall i, j :: 0 <= i < j < n ==> UpTo(n)[i] < UpTo(n)[j]
    ensures forall k :: k in UpTo(n) <==> 1 <= k <= n
  {
    var r := UpTo(n);
    forall k | 1 <= k <= n ensures k in r {
      assert r[k - 1] == k;
    }
  }

  datatype Outcome = Outcome(errorMessage: string, numbers: seq<int>)

  /** The handler: toInt() fails exactly where toIntOrNull() gives null; both the failure
      and a count below 1 give the error and an empty list. */
  function Generate(input: string): (r: Outcome)
    ensures r.errorMessage == "" || r.numbers == []
    ensures r.errorMessage == "" <==> ToIntOrNull(input).Some? && ToIntOrNull(input).value >= 1
    ensures r.errorMessage != "" ==> r.errorMessage == InvalidInput
    ensures r.errorMessage == "" ==> r.numbers == UpTo(ToIntOrNull(input).value)
  {
    var n := ToIntOrNull(input);
    if n.None? then Outcome(InvalidInput, [])
    else if n.value <= 0 then Outcome(InvalidInput, [])
    else Outcome("", UpTo(n.value))
  }

  /** The form's state: the typed text, the generated list and the error line. */
  class NumberForm {
    var inputValue: string
    var numbers: seq<int>
    var errorMessage: string

    /** Never an error and a list on screen together. */
    predicate Consistent()
      reads this
    {
      errorMessage == "" || numbers == []
    }

    constructor ()
      ensures inputValue == "" && numbers == [] && errorMessage == "" && Consistent()
    {
      inputValue := "";
      numbers := [];
      errorMessage := "";
    }

    /** Any edit stores the text and clears both the error and the list. */
    method OnValueChange(it: string)
      modifies this
      ensures inputValue == it && errorMessage == "" && numbers == [] && Consistent()
    {
      inputValue := it;
      errorMessage := "";
      numbers := [];
    }

    /** The "Tạo" button. */
    method Create()
      modifies this
      ensures inputValue == old(inputValue) && Consistent()
      ensures Outcome(errorMessage, numbers) == Generate(inputValue)
    {
      var n := ToIntOrNull(inputValue);
      if n.None? || n.value <= 0 {
        errorMessage := InvalidInput;
        numbers := [];
      } else {
        errorMessage := "";
        numbers := UpTo(n.value);
      }
    }
  }

  /** Surrounding spaces make the input unparsable, so they give the error. */
  lemma SpacesRejected(s: string)
    requires s != [] && IsWhitespace(s[0])
    ensures Generate(s).errorMessage == InvalidInput
  {
  }
}
