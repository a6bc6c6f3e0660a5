/** Input validation of the beneficiary form (`BeneficiaryCreateModel`):
    the IBAN length check and the name length bounds. */
module Beneficiary {
  import opened Strings

  const EmptyIbanMessage := "IBAN darf nicht leer sein."
  const IbanLengthMessage := "Ung\U{FC}ltige IBAN-L\U{E4}nge."

  /** IBAN length bounds of ISO 13616: from 15 (Norway) to 34 characters. */
  const MinIbanLength := 15
  const MaxIbanLength := 34

  datatype ValidationResult = Success | Failure(message: string)

  /** `value.Replace(" ", "").ToUpper()`. */
  function NormalizeIban(s: string): (r: string)
    ensures |r| == |s| - multiset(s)[' ']
    ensures Utf16Length(r) == Utf16Length(s) - multiset(s)[' ']
  {
    Utf16LengthRemoveSpaces(s);
    Utf16LengthToUpper(RemoveSpaces(s));
    ToUpper(RemoveSpaces(s))
  }

  /** `IbanValidationAttribute.IsValid`: a null or blank value is refused as
      empty; otherwise only the length without spaces is checked, no
      checksum. The length is `string.Length`, in UTF-16 code units. */
  function ValidateIban(value: Option<string>): (r: ValidationResult)
    ensures r == Failure(EmptyIbanMessage) <==> IsNullOrWhiteSpace(value)
    ensures r == Failure(IbanLengthMessage) <==>
      !IsNullOrWhiteSpace(value) && !(MinIbanLength <= Utf16Length(value.value) - multiset(value.value)[' '] <= MaxIbanLength)
    ensures r == Success <==>
      !IsNullOrWhiteSpace(value) && MinIbanLength <= Utf16Length(value.value) - multiset(value.value)[' '] <= MaxIbanLength
  {
    if IsNullOrWhiteSpace(value) then Failure(EmptyIbanMessage)
    else
      var iban := NormalizeIban(value.value);
      if Utf16Length(iban) < MinIbanLength || Utf16Length(iban) > MaxIbanLength then Failure(IbanLengthMessage)
      else Success
  }

  /** Letter case never changes the outcome. */
  lemma ValidateIbanIgnoresCase(s: string)
    ensures ValidateIban(Some(ToUpper(s))) == ValidateIban(Some(s))
  {
    ToUpperKeepsBlank(s);
    Utf16LengthToUpper(s);
    RemoveSpacesToUpper(s);
    assert multiset(ToUpper(s))[' '] == multiset(s)[' '] by {
      assert |RemoveSpaces(ToUpper(s))| == |RemoveSpaces(s)|;
    }
  }

  /** Only ' ' is removed: a value without spaces is measured as it is,
      tabs and other white space included. */
  lemma OtherWhiteSpaceCounts(s: string)
    requires ' ' !in s && !IsBlank(s)
    ensures ValidateIban(Some(s)) == if MinIbanLength <= Utf16Length(s) <= MaxIbanLength then Success else Failure(IbanLengthMessage)
  {
    assert multiset(s)[' '] == 0;
  }

  const MinNameLength := 2
  const MaxNameLength := 50

  /** A character outside the Basic Multilingual Plane counts twice: 13
      characters without spaces followed by one such character have length
      15 and are accepted, although they are only 14 characters. */
  lemma AstralCharacterCountsTwice(a: string, c: char)
    requires |a| == 13 && ' ' !in a
    requires forall i | 0 <= i < |a| :: a[i] as int <= 0xFFFF
    requires c as int > 0xFFFF
    ensures ValidateIban(Some(a + [c])) == Success
  {
    var s := a + [c];
    assert !IsWhiteSpace(s[13]);
    Utf16LengthAppend(a, [c]);
    assert Utf16Length([c]) == 2 by {
      assert [c][1..] == [];
    }
    assert ' ' !in s;
    OtherWhiteSpaceCounts(s);
  }

  /** `[Required]`, `[MinLength(2)]` and `[MaxLength(50)]` on first and last
      name: a non-null, non-blank name whose `Length`, in UTF-16 code units,
      lies between 2 and 50. */
  function ValidName(name: Option<string>): (ok: bool)
    ensures ok <==> !IsNullOrWhiteSpace(name) && MinNameLength <= Utf16Length(name.value) <= MaxNameLength
    ensures ok ==> 1 <= |name.value| <= MaxNameLength
    ensures name.Some? && (forall i | 0 <= i < |name.value| :: name.value[i] as int <= 0xFFFF) ==>
      (ok <==> !IsBlank(name.value) && MinNameLength <= |name.value| <= MaxNameLength)
  {
    !IsNullOrWhiteSpace(name) && MinNameLength <= Utf16Length(name.value) <= MaxNameLength
  }

  /** A one-character name outside the Basic Multilingual Plane, such as
      the surname U+20BB7, has length 2 and is valid. */
  lemma SurrogatePairNameValid(c: char)
    requires c as int > 0xFFFF
    ensures ValidName(Some([c]))
  {
    assert !IsWhiteSpace([c][0]);
    assert Utf16Length([c]) == 2 by {
      assert [c][1..] == [];
    }
  }

  datatype BeneficiaryCreateModel = BeneficiaryCreateModel(
    firstname: Option<string>, lastname: Option<string>, iban: Option<string>)

  /** The whole form: both names and the IBAN must be valid. */
  function ValidateForm(m: BeneficiaryCreateModel): (ok: bool)
    ensures ok ==> m.firstname.Some? && 1 <= |m.firstname.value| <= 50 && m.lastname.Some? && 1 <= |m.lastname.value| <= 50
    ensures ok ==> m.iban.Some? && MinIbanLength <= Utf16Length(NormalizeIban(m.iban.value)) <= MaxIbanLength
    ensures ok <==> ValidName(m.firstname) && ValidName(m.lastname) && ValidateIban(m.iban) == Success
  {
    ValidName(m.firstname) && ValidName(m.lastname) && ValidateIban(m.iban).Success?
  }
}
