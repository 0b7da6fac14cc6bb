/**
 * The closed set of eight ABO/Rh blood types offered by the blood-type
 * selector, and the selector itself: a controlled choice among those eight
 * strings whose change callback receives the chosen option's value.
 */
module BloodTypeSelector {

  import opened Wrappers

  datatype AboGroup = A | B | AB | O
  datatype Rh = Pos | Neg

  /** A blood type is an ABO group together with an Rh factor. */
  datatype BloodType = BloodType(group: AboGroup, rh: Rh)

  function GroupName(g: AboGroup): string
  {
    match g
    case A => "A"
    case B => "B"
    case AB => "AB"
    case O => "O"
  }

  function RhSign(r: Rh): string
  {
    match r
    case Pos => "+"
    case Neg => "-"
  }

  /** The string the user interface shows and passes around for a blood type. */
  function Name(t: BloodType): (s: string)
    ensures s == GroupName(t.group) + RhSign(t.rh)
    ensures |s| >= 2 && s[|s| - 1] in {'+', '-'}
  {
    GroupName(t.group) + RhSign(t.rh)
  }

  /** The option list, in the order the selector declares and renders it. */
  const BloodTypes: seq<string> := ["A+", "A-", "B+", "B-", "AB+", "AB-", "O+", "O-"]

  /** The same eight types as values, in the same order. */
  const AllTypes: seq<BloodType> := [
    BloodType(A, Pos), BloodType(A, Neg), BloodType(B, Pos), BloodType(B, Neg),
    BloodType(AB, Pos), BloodType(AB, Neg), BloodType(O, Pos), BloodType(O, Neg)
  ]

  function NamesOf(ts: seq<BloodType>): (ns: seq<string>)
    ensures |ns| == |ts|
    ensures forall i :: 0 <= i < |ts| ==> ns[i] == Name(ts[i])
  {
    if ts == [] then [] else [Name(ts[0])] + NamesOf(ts[1..])
  }

  /** The string list is exactly the names of the eight values, position by position. */
  lemma BloodTypesAreNames()
    ensures NamesOf(AllTypes) == BloodTypes
  {
    var ns := NamesOf(AllTypes);
    forall i | 0 <= i < 8
      ensures ns[i] == BloodTypes[i]
    {
      NameOfType(AllTypes[i]);
    }
  }

  /** The name of each of the eight types, spelled out. */
  lemma NameOfType(t: BloodType)
    ensures Name(t) == match t
      case BloodType(A, Pos) => "A+"
      case BloodType(A, Neg) => "A-"
      case BloodType(B, Pos) => "B+"
      case BloodType(B, Neg) => "B-"
      case BloodType(AB, Pos) => "AB+"
      case BloodType(AB, Neg) => "AB-"
      case BloodType(O, Pos) => "O+"
      case BloodType(O, Neg) => "O-"
  {
    match t
    case BloodType(A, Pos) => assert Name(t) == ['A', '+'];
    case BloodType(A, Neg) => assert Name(t) == ['A', '-'];
    case BloodType(B, Pos) => assert Name(t) == ['B', '+'];
    case BloodType(B, Neg) => assert Name(t) == ['B', '-'];
    case BloodType(AB, Pos) => assert Name(t) == ['A', 'B', '+'];
    case BloodType(AB, Neg) => assert Name(t) == ['A', 'B', '-'];
    case BloodType(O, Pos) => assert Name(t) == ['O', '+'];
    case BloodType(O, Neg) => assert Name(t) == ['O', '-'];
  }

  /** Every blood type value occurs in the list, so the list is the whole closed set. */
  lemma AllTypesComplete(t: BloodType)
    ensures t in AllTypes
    ensures Name(t) in BloodTypes
  {
    BloodTypesAreNames();
    match t
    case BloodType(A, Pos) => assert t == AllTypes[0];
    case BloodType(A, Neg) => assert t == AllTypes[1];
    case BloodType(B, Pos) => assert t == AllTypes[2];
    case BloodType(B, Neg) => assert t == AllTypes[3];
    case BloodType(AB, Pos) => assert t == AllTypes[4];
    case BloodType(AB, Neg) => assert t == AllTypes[5];
    case BloodType(O, Pos) => assert t == AllTypes[6];
    case BloodType(O, Neg) => assert t == AllTypes[7];
  }

  /** The option list holds exactly eight pairwise distinct entries. */
  lemma BloodTypesDistinct()
    ensures |BloodTypes| == 8
    ensures forall i, j :: 0 <= i < j < |BloodTypes| ==> BloodTypes[i] != BloodTypes[j]
  {
  }

  /** Two blood types with the same name are the same; string equality on names is equality of types. */
  lemma {:induction false} NameInjective(s: BloodType, t: BloodType)
    ensures Name(s) == Name(t) <==> s == t
  {
    if Name(s) == Name(t) {
      var n := Name(s);
      assert RhSign(s.rh) == [n[|n| - 1]] == RhSign(t.rh);
      assert GroupName(s.group) == n[..|n| - 1] == GroupName(t.group);
    }
  }

  /** Reads a name back as a blood type; anything outside the eight strings is None. */
  function Parse(s: string): (r: Option<BloodType>)
    ensures r.Some? ==> Name(r.value) == s
  {
    if s == "A+" then Some(BloodType(A, Pos))
    else if s == "A-" then Some(BloodType(A, Neg))
    else if s == "B+" then Some(BloodType(B, Pos))
    else if s == "B-" then Some(BloodType(B, Neg))
    else if s == "AB+" then Some(BloodType(AB, Pos))
    else if s == "AB-" then Some(BloodType(AB, Neg))
    else if s == "O+" then Some(BloodType(O, Pos))
    else if s == "O-" then Some(BloodType(O, Neg))
    else None
  }

  lemma ParseName(t: BloodType)
    ensures Parse(Name(t)) == Some(t)
  {
    NameOfType(t);
  }

  /** A string parses exactly when it is one of the listed options. */
  lemma ParseIffListed(s: string)
    ensures Parse(s).Some? <==> s in BloodTypes
  {
  }

  /** One rendered option: its React key, its value and its visible text. */
  datatype SelectItem = SelectItem(key: string, value: string, text: string)

  function OptionsOf(names: seq<string>): (items: seq<SelectItem>)
    ensures |items| == |names|
    ensures forall i :: 0 <= i < |names| ==> items[i] == SelectItem(names[i], names[i], names[i])
  {
    if names == [] then [] else [SelectItem(names[0], names[0], names[0])] + OptionsOf(names[1..])
  }

  /** The rendered options: one per blood type, in list order, key, value and text all the type's string. */
  function Options(): (items: seq<SelectItem>)
    ensures |items| == 8
    ensures forall i :: 0 <= i < 8 ==> items[i].key == items[i].value == items[i].text == BloodTypes[i]
  {
    OptionsOf(BloodTypes)
  }

  /** What the selector shows: the incoming value, whatever string it is, and the fixed options. */
  datatype SelectView = SelectView(current: string, items: seq<SelectItem>)

  function Render(value: string): (v: SelectView)
    ensures v.current == value
    ensures v.items == Options()
  {
    SelectView(value, Options())
  }

  /** The options do not depend on the incoming value, which is never checked against the set. */
  lemma RenderIgnoresValue(a: string, b: string)
    ensures Render(a).items == Render(b).items
    ensures Render(a).current == a
  {
  }

  /**
   * The value the change callback receives when the user picks option i of
   * the view: the option's value, unchanged, and so one of the eight types
   * whatever the current value was.
   */
  function Choose(v: SelectView, i: nat): (chosen: string)
    requires i < |v.items|
    requires v.items == Options()
    ensures chosen == BloodTypes[i]
    ensures Parse(chosen).Some?
  {
    ParseIffListed(v.items[i].value);
    v.items[i].value
  }
}
