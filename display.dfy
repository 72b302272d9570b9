/** Status labels, status colours and initials (frontend/src/utils/index.ts). */
module Display {
  import opened Text

  const Green: string := "#10B981"
  const Orange: string := "#F97316"
  const Red: string := "#EF4444"
  const Gray: string := "#6B7280"

  /** `getStatusColor`. */
  function StatusColor(status: string): string {
    if status == "completed" then Green
    else if status == "in_progress" then Orange
    else if status == "missed" || status == "cancelled" then Red
    else Gray
  }

  /** Each colour belongs to exactly the statuses that select it; every
      status outside the four coloured ones, scheduled included, is gray. */
  lemma StatusColorCases(status: string)
    ensures StatusColor(status) == Green <==> status == "completed"
    ensures StatusColor(status) == Orange <==> status == "in_progress"
    ensures StatusColor(status) == Red <==> status in {"missed", "cancelled"}
    ensures StatusColor(status) == Gray <==> status !in {"completed", "in_progress", "missed", "cancelled"}
  {
  }

  /** `getStatusText`: a label for each known status, any other string as
      it is. */
  function StatusText(status: string): string {
    if status == "scheduled" then "Scheduled"
    else if status == "in_progress" then "In Progress"
    else if status == "completed" then "Completed"
    else if status == "missed" then "Missed"
    else if status == "cancelled" then "Cancelled"
    else status
  }

  const KnownStatuses: set<string> := {"scheduled", "in_progress", "completed", "missed", "cancelled"}

  /** Unknown statuses pass through unchanged, and the five known ones get
      five distinct labels, none of them a status itself. */
  lemma StatusTextCases(status: string, other: string)
    ensures status !in KnownStatuses ==> StatusText(status) == status
    ensures status in KnownStatuses ==> StatusText(status) !in KnownStatuses
    ensures status in KnownStatuses && other in KnownStatuses && status != other ==>
      StatusText(status) != StatusText(other)
    ensures StatusText("in_progress") == "In Progress"
  {
  }

  /** JavaScript's `s.split(' ')`: the pieces between single spaces, empty
      ones included; the empty string gives one empty piece. */
  function Split(s: string): (r: seq<string>)
    ensures |r| >= 1
    ensures forall i | 0 <= i < |r| :: ' ' !in r[i]
  {
    if s == [] then [""]
    else
      var rest := Split(s[1..]);
      if s[0] == ' ' then [""] + rest else [[s[0]] + rest[0]] + rest[1..]
  }

  /** Joining the pieces with single spaces gives back the string. */
  lemma {:induction false} SplitJoin(s: string)
    ensures Join(" ", Split(s)) == s
  {
    if s != [] {
      var rest := Split(s[1..]);
      SplitJoin(s[1..]);
      if s[0] == ' ' {
        assert Split(s) == [""] + rest;
        assert (Split(s))[1..] == rest;
      } else {
        var w := [s[0]] + rest[0];
        assert Split(s) == [w] + rest[1..];
        if |rest| == 1 {
          assert Join(" ", rest) == rest[0];
        } else {
          assert Join(" ", rest) == rest[0] + " " + Join(" ", rest[1..]);
          assert (Split(s))[1..] == rest[1..];
        }
      }
    }
  }

  /** `word.charAt(0)`: the first character, or nothing for an empty word. */
  function FirstChar(w: string): string {
    if w == "" then "" else [w[0]]
  }

  /** `words.map(w => w.charAt(0)).join('')`. */
  function FirstChars(words: seq<string>): string {
    if words == [] then "" else FirstChar(words[0]) + FirstChars(words[1..])
  }

  /** The characters of `s` that begin a word: not a space, and first or
      after a space. `atStart` says whether the previous character was a
      space (or there was none). */
  function WordStarts(s: string, atStart: bool): (r: string)
    ensures ' ' !in r
  {
    if s == [] then ""
    else if s[0] == ' ' then WordStarts(s[1..], true)
    else (if atStart then [s[0]] else "") + WordStarts(s[1..], false)
  }

  /** The first characters of the pieces are exactly the word starts; the
      pieces after the first start after the first space. */
  lemma {:induction false} FirstCharsAreWordStarts(s: string)
    ensures FirstChars(Split(s)) == WordStarts(s, true)
    ensures FirstChars(Split(s)[1..]) == WordStarts(s, false)
  {
    if s == [] {
      assert Split(s)[1..] == [];
    } else {
      var rest := Split(s[1..]);
      FirstCharsAreWordStarts(s[1..]);
      if s[0] == ' ' {
        assert Split(s) == [""] + rest;
        assert Split(s)[1..] == rest;
        assert FirstChars(Split(s)) == "" + FirstChars(rest);
      } else {
        var w := [s[0]] + rest[0];
        assert Split(s) == [w] + rest[1..];
        assert Split(s)[1..] == rest[1..];
        assert FirstChars(Split(s)) == [s[0]] + FirstChars(rest[1..]);
      }
    }
  }

  function Take(s: string, n: nat): string {
    if |s| <= n then s else s[..n]
  }

  /** `getInitials`: split on single spaces, first character of each piece,
      joined, upper-cased, at most two kept. */
  function Initials(fullName: string): string {
    Take(Upper(FirstChars(Split(fullName))), 2)
  }

  /** The initials are the upper-cased first letters of the words, in order,
      at most two of them; empty words contribute nothing. */
  lemma InitialsOfWords(fullName: string)
    ensures Initials(fullName) == Take(Upper(WordStarts(fullName, true)), 2)
    ensures |Initials(fullName)| <= 2
    ensures Initials("") == ""
    ensures forall i | 0 <= i < |Initials(fullName)| ::
      Initials(fullName)[i] == UpperChar(WordStarts(fullName, true)[i])
  {
    FirstCharsAreWordStarts(fullName);
  }
}
