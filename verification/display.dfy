/** How the renderers turn field values into text: the `or 'N/A'` and
    `or 'Not Provided'` fallbacks, `strftime` or a placeholder for dates and
    times, and the `Yes`/`No` checklist lines whose labels come from the
    column names by `replace('_', ' ').title()`. */
module Display {
  import opened Values
  import opened Calendar

  const NotAvailable := "N/A"
  const NotProvided := "Not Provided"

  /** `value or 'N/A'` for an optional text field. */
  function OrNA(o: Option<string>): string {
    if Truthy(o) then o.value else NotAvailable
  }

  /** `value or 'Not Provided'` for a signature field. */
  function OrNotProvided(s: string): string {
    if s != "" then s else NotProvided
  }

  /** `date.strftime('%Y-%m-%d') if date else 'N/A'` (a `date` object is
      always truthy). */
  function DateOrNA(o: Option<Date>): string
    requires o.Some? ==> ValidDate(o.value)
  {
    if o.Some? then FormatDate(o.value) else NotAvailable
  }

  /** `time.strftime('%H:%M') if time else 'N/A'` (a `time` object is always
      truthy, midnight included, since Python 3.5). */
  function TimeOrNA(o: Option<Time>): string
    requires o.Some? ==> ValidTime(o.value)
  {
    if o.Some? then FormatTime(o.value) else NotAvailable
  }

  /** `data["date"].strftime("%Y-%m-%d") if data["date"] else ""`. */
  function DateOrEmpty(o: Option<Date>): string
    requires o.Some? ==> ValidDate(o.value)
  {
    if o.Some? then FormatDate(o.value) else ""
  }

  /** A present, non-empty value is shown as itself; otherwise `N/A`. The
      display is never blank, and `N/A` is shown exactly when the value is
      missing or empty or is itself the text `N/A`: a reader of the PDF
      cannot tell those apart. */
  lemma OrNADisplay(o: Option<string>)
    ensures OrNA(o) != ""
    ensures Truthy(o) ==> OrNA(o) == o.value
    ensures OrNA(o) == NotAvailable <==> !Truthy(o) || o.value == NotAvailable
  {
  }

  /** A signature is shown as written when non-empty and as `Not Provided`
      otherwise, so the signature line is never blank. */
  lemma OrNotProvidedDisplay(s: string)
    ensures OrNotProvided(s) != ""
    ensures s != "" ==> OrNotProvided(s) == s
    ensures OrNotProvided(s) == NotProvided <==> s == "" || s == NotProvided
  {
  }

  predicate IsUpper(c: char) {
    'A' <= c <= 'Z'
  }

  predicate IsLower(c: char) {
    'a' <= c <= 'z'
  }

  /** The cased characters `str.title()` looks at (ASCII letters only). */
  predicate IsLetter(c: char) {
    IsUpper(c) || IsLower(c)
  }

  function ToUpper(c: char): char {
    if IsLower(c) then (c as int - 32) as char else c
  }

  function ToLower(c: char): char {
    if IsUpper(c) then (c as int + 32) as char else c
  }

  /** `s.replace(from, to)` for single characters. */
  function Replace(s: string, from: char, to: char): (r: string)
    ensures |r| == |s|
    ensures forall i :: 0 <= i < |s| ==> r[i] == (if s[i] == from then to else s[i])
  {
    if s == [] then [] else [if s[0] == from then to else s[0]] + Replace(s[1..], from, to)
  }

  /** `s.lower()`. */
  function Lower(s: string): (r: string)
    ensures |r| == |s|
    ensures forall i :: 0 <= i < |s| ==> r[i] == ToLower(s[i])
  {
    if s == [] then [] else [ToLower(s[0])] + Lower(s[1..])
  }

  /** One character of `str.title()`: a letter becomes lower case when the
      character before it is a letter and upper case otherwise. */
  function TitleChar(c: char, afterLetter: bool): char {
    if IsLetter(c) then (if afterLetter then ToLower(c) else ToUpper(c)) else c
  }

  /** `str.title()` run over `s`, where `afterLetter` says whether the text
      before `s` ended in a letter. The result is stated position by position
      in terms of each character's left neighbour. */
  function TitleFrom(s: string, afterLetter: bool): (r: string)
    ensures |r| == |s|
    ensures forall i :: 0 <= i < |s| ==> r[i] == TitleChar(s[i], if i == 0 then afterLetter else IsLetter(s[i - 1]))
  {
    if s == [] then [] else [TitleChar(s[0], afterLetter)] + TitleFrom(s[1..], IsLetter(s[0]))
  }

  /** `s.title()`: every run of letters starts upper case and continues lower
      case; other characters are kept. */
  function Title(s: string): string {
    TitleFrom(s, false)
  }

  /** `label.replace('_', ' ').title()`. */
  function Label(key: string): string {
    Title(Replace(key, '_', ' '))
  }

  /** `f"{label.replace('_', ' ').title()}: {status}"` with `Yes` for a
      ticked box and `No` otherwise. */
  function ChecklistLine(name: string, checked: bool): string {
    Label(name) + ": " + (if checked then "Yes" else "No")
  }

  /** Column names in snake case: lower-case letters and underscores. */
  predicate SnakeCase(key: string) {
    forall i :: 0 <= i < |key| ==> IsLower(key[i]) || key[i] == '_'
  }

  /** Reading a label back: lower-case it and turn spaces into underscores. */
  function Unlabel(text: string): string {
    Replace(Lower(text), ' ', '_')
  }

  /** The label of a snake-case column name spells the name: undoing the
      title-casing and the underscore replacement gives the column back. */
  lemma LabelRoundTrip(key: string)
    requires SnakeCase(key)
    ensures Unlabel(Label(key)) == key
  {
    var spaced := Replace(key, '_', ' ');
    var shown := Label(key);
    var back := Unlabel(shown);
    forall i | 0 <= i < |key|
      ensures back[i] == key[i]
    {
      assert shown[i] == TitleChar(spaced[i], if i == 0 then false else IsLetter(spaced[i - 1]));
    }
  }

  /** A label contains neither a colon nor an underscore. */
  lemma LabelHasNoColon(key: string)
    requires SnakeCase(key)
    ensures |Label(key)| == |key|
    ensures forall i :: 0 <= i < |key| ==> Label(key)[i] != ':' && Label(key)[i] != '_'
  {
    var spaced := Replace(key, '_', ' ');
    forall i | 0 <= i < |key|
      ensures Label(key)[i] != ':' && Label(key)[i] != '_'
    {
      assert Label(key)[i] == TitleChar(spaced[i], if i == 0 then false else IsLetter(spaced[i - 1]));
    }
  }

  /** Different checklist entries never print the same line: the line
      determines both the column name and whether its box was ticked. */
  lemma ChecklistLineDeterminesEntry(name: string, checked: bool, name': string, checked': bool)
    requires SnakeCase(name) && SnakeCase(name')
    requires ChecklistLine(name, checked) == ChecklistLine(name', checked')
    ensures name == name' && checked == checked'
  {
    var la, lb := Label(name), Label(name');
    LabelHasNoColon(name);
    LabelHasNoColon(name');
    var line := ChecklistLine(name, checked);
    assert line[|la|] == ':';
    assert ChecklistLine(name', checked')[|lb|] == ':';
    assert la == line[..|la|] == lb;
    assert line[|la| + 2..] == (if checked then "Yes" else "No");
    LabelRoundTrip(name);
    LabelRoundTrip(name');
  }
}
