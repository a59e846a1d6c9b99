/** The age check form: a name and an age field; the button turns them into one message. */
module AgeCheck {
  import opened KotlinText

  const AskName: string := "Vui lòng nhập họ và tên."
  const AskAge: string := "Vui lòng nhập tuổi."
  const NotANumber: string := "Tuổi phải là số hợp lệ."
  const InvalidAge: string := "Tuổi không hợp lệ"

  const Elderly: string := "Người già"
  const Adult: string := "Người lớn"
  const Child: string := "Trẻ em"
  const Baby: string := "Em bé"

  /** The inner `when` over the parsed age; None stands for its final else branch. */
  function AgeLabel(n: int): (r: Option<string>)
    ensures r.Some?
    ensures r == Some(Elderly) <==> n > 65
    ensures r == Some(Adult) <==> 6 <= n <= 65
    ensures r == Some(Child) <==> 2 <= n <= 5
    ensures r == Some(Baby) <==> n < 2
  {
    if n > 65 then Some(Elderly)
    else if 6 <= n <= 65 then Some(Adult)
    else if 2 <= n <= 5 then Some(Child)
    else if n < 2 then Some(Baby)
    else None
  }

  /** "<name> là <cls>", or the final else message. */
  function ClassMessage(name: string, n: int): string {
    var cls := AgeLabel(n);
    if cls.Some? then name + " là " + cls.value else InvalidAge
  }

  /** The checks in the button handler, on the trimmed age and its parse: the first
      failing check wins (blank name, empty age, unparsable age), otherwise the age class. */
  function Decide(name: string, input: string, ageValue: Option<int>): (r: string)
    ensures r != ""
  {
    if IsBlank(name) then AskName
    else if input == [] then AskAge
    else if ageValue.None? then NotANumber
    else ClassMessage(name, ageValue.value)
  }

  /** The button handler: the age is trimmed and parsed, then checked. */
  function AgeResult(name: string, age: string): (r: string)
    ensures r != ""
  {
    Decide(name, Trim(age), ToIntOrNull(Trim(age)))
  }

  /** A classified message ends with the last letter of its class, which no prompt and
      not the fallback message end with. */
  lemma ClassMessageDistinct(name: string, n: int)
    ensures var m := ClassMessage(name, n);
      m == name + " là " + AgeLabel(n).value
      && m != AskName && m != AskAge && m != NotANumber && m != InvalidAge
  {
    var cls := AgeLabel(n).value;
    var m := name + " là " + cls;
    assert m[|m| - 1] == cls[|cls| - 1];
    assert cls[|cls| - 1] in {'à', 'n', 'm', 'é'};
    assert AskName[|AskName| - 1] == '.';
    assert AskAge[|AskAge| - 1] == '.';
    assert NotANumber[|NotANumber| - 1] == '.';
    assert InvalidAge[|InvalidAge| - 1] == 'ệ';
  }

  /** Each message names one cause: the three prompts come exactly from their checks, the
      fallback message never appears, and every other message is the name, " là " and
      the age class. */
  lemma DecideCases(name: string, input: string, ageValue: Option<int>)
    ensures Decide(name, input, ageValue) == AskName <==> IsBlank(name)
    ensures Decide(name, input, ageValue) == AskAge <==> !IsBlank(name) && input == []
    ensures Decide(name, input, ageValue) == NotANumber <==>
              !IsBlank(name) && input != [] && ageValue.None?
    ensures Decide(name, input, ageValue) != InvalidAge
    ensures !IsBlank(name) && input != [] && ageValue.Some? ==>
              Decide(name, input, ageValue) == name + " là " + AgeLabel(ageValue.value).value
  {
    assert AskName != AskAge && AskName != NotANumber && AskAge != NotANumber by {
      assert |AskName| != |AskAge| && |AskName| != |NotANumber| && |AskAge| != |NotANumber|;
    }
    assert AskName != InvalidAge && AskAge != InvalidAge && NotANumber != InvalidAge by {
      assert AskName[|AskName| - 1] == '.' && AskAge[|AskAge| - 1] == '.';
      assert NotANumber[|NotANumber| - 1] == '.' && InvalidAge[|InvalidAge| - 1] == 'ệ';
    }
    if ageValue.Some? {
      ClassMessageDistinct(name, ageValue.value);
    }
  }

  /** The same cases for the handler itself. */
  lemma AgeResultCases(name: string, age: string)
    ensures AgeResult(name, age) == AskName <==> IsBlank(name)
    ensures AgeResult(name, age) == AskAge <==> !IsBlank(name) && Trim(age) == []
    ensures AgeResult(name, age) == NotANumber <==>
              !IsBlank(name) && Trim(age) != [] && ToIntOrNull(Trim(age)).None?
    ensures AgeResult(name, age) != InvalidAge
  {
    DecideCases(name, Trim(age), ToIntOrNull(Trim(age)));
  }

  /** Whitespace typed around the age changes nothing. */
  lemma AgeIgnoresPadding(name: string, pre: string, age: string, post: string)
    requires IsBlank(pre) && IsBlank(post)
    ensures AgeResult(name, pre + age + post) == AgeResult(name, age)
  {
    TrimIgnoresPadding(pre, age, post);
  }

  /** Digits beyond the Int range are reported as not a number, not classified. */
  lemma AgeOutOfRange(name: string, digits: string)
    requires !IsBlank(name) && digits != [] && AllDigits(digits) && DigitsValue(digits) > MaxInt
    ensures AgeResult(name, digits) == NotANumber
  {
    assert IsDigit(digits[0]) && IsDigit(digits[|digits| - 1]);
    TrimNoEdges(digits);
    ToIntOrNullTooLarge(digits);
    assert AgeResult(name, digits) == Decide(name, digits, None);
  }
}
