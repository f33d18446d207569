/** The profile edit form: its fields initialised from the user, the
    change handler, the request the submit handler sends (the two list
    fields split on "," and trimmed) and the outcome of the save. */
module ProfileEditForm {
  import opened Common
  import opened Text
  import opened Types
  import AuthContext

  /** A form value: the text an input holds, or the user's daily rate as
      the number it was initialised with. */
  datatype FieldValue = TextValue(text: string) | NumberValue(n: int)

  /** The names of the form's inputs. */
  datatype FieldName = Name | Bio | ProfilePic | Languages | Expertise | DailyRate | TravelPreferences

  datatype Form = Form(
    name: string,
    bio: string,
    profilePic: string,
    languages: string,
    expertise: string,
    dailyRate: FieldValue,
    travelPreferences: string)

  /** The list separator the form shows. */
  const ListSeparator: string := ", "

  /** `list.join(", ")`. */
  function JoinList(xs: seq<string>): string
  {
    Join(xs, ListSeparator)
  }

  /** `text.split(",").map(l => l.trim())`: at least one piece, one more
      than there are commas, each the trimmed part at its place, and so none
      with a comma or surrounding white space. */
  function SplitList(text: string): (r: seq<string>)
    ensures |r| == |Split(text, ',')| >= 1
    ensures forall i :: 0 <= i < |r| ==> r[i] == Trim(Split(text, ',')[i])
    ensures forall i :: 0 <= i < |r| ==> NoSurroundingSpace(r[i]) && ',' !in r[i]
  {
    var parts := Split(text, ',');
    seq(|parts|, i requires 0 <= i < |parts| => TrimWithout(parts[i], ','))
  }

  /** `trim` of a string without `c` has no `c` either. */
  function TrimWithout(s: string, c: char): (r: string)
    requires c !in s
    ensures r == Trim(s) && c !in r && NoSurroundingSpace(r)
  {
    var r := Trim(s);
    var k :| TrimmedAt(s, r, k);
    InfixExcludes(s, k, |r|, c);
    r
  }

  /** The initial form: missing text fields become "", the lists (missing
      expertise as empty) are joined with ", ", and a daily rate that is
      missing or zero becomes "". */
  function InitForm(u: User): (f: Form)
    ensures f.name == TextOr(u.name, "") && f.bio == TextOr(u.bio, "")
    ensures f.profilePic == TextOr(u.profilePic, "")
    ensures f.travelPreferences == TextOr(u.travelPreferences, "")
    ensures f.languages == JoinList(u.languages)
    ensures f.expertise == JoinList(u.expertise.GetOr([]))
    ensures f.dailyRate == (if u.dailyRate.Some? && u.dailyRate.value != 0 then NumberValue(u.dailyRate.value)
                            else TextValue(""))
  {
    Form(TextOr(u.name, ""), TextOr(u.bio, ""), TextOr(u.profilePic, ""),
         JoinList(u.languages), JoinList(u.expertise.GetOr([])),
         if u.dailyRate.Some? && u.dailyRate.value != 0 then NumberValue(u.dailyRate.value) else TextValue(""),
         TextOr(u.travelPreferences, ""))
  }

  /** Reads one field of the form. */
  function FieldOf(f: Form, k: FieldName): FieldValue
  {
    match k
    case Name => TextValue(f.name)
    case Bio => TextValue(f.bio)
    case ProfilePic => TextValue(f.profilePic)
    case Languages => TextValue(f.languages)
    case Expertise => TextValue(f.expertise)
    case DailyRate => f.dailyRate
    case TravelPreferences => TextValue(f.travelPreferences)
  }

  /** `handleChange`: the named field takes the input's text; every other
      field keeps its value. */
  function HandleChange(f: Form, k: FieldName, value: string): (r: Form)
    ensures FieldOf(r, k) == TextValue(value)
    ensures forall other: FieldName :: other != k ==> FieldOf(r, other) == FieldOf(f, other)
  {
    match k
    case Name => f.(name := value)
    case Bio => f.(bio := value)
    case ProfilePic => f.(profilePic := value)
    case Languages => f.(languages := value)
    case Expertise => f.(expertise := value)
    case DailyRate => f.(dailyRate := TextValue(value))
    case TravelPreferences => f.(travelPreferences := value)
  }

  /** `Number(form.dailyRate)` where the model can say what it is: the
      empty text is 0 and a number is itself; converting other text is
      floating-point parsing and is left abstract. */
  datatype RateNumber = Rate(n: int) | ConvertedFrom(text: string)

  function RateOf(v: FieldValue): (r: RateNumber)
    ensures v == TextValue("") ==> r == Rate(0)
    ensures v.NumberValue? ==> r == Rate(v.n)
  {
    match v
    case NumberValue(n) => Rate(n)
    case TextValue(t) => if t == "" then Rate(0) else ConvertedFrom(t)
  }

  /** The PATCH body: the form, with the lists split and the rate converted. */
  datatype UpdateBody = UpdateBody(
    name: string,
    bio: string,
    profilePic: string,
    languages: seq<string>,
    expertise: seq<string>,
    dailyRate: RateNumber,
    travelPreferences: string)

  datatype UpdateRequest = UpdateRequest(url: string, authorization: string, body: UpdateBody)

  /** The request `handleSubmit` sends for the user `userId`; the header
      interpolates the token, so an `undefined` one is sent as "undefined"
      and a `null` one as "null". */
  function SubmitRequest(apiUrl: Option<string>, userId: string, token: AuthContext.Field<string>, f: Form): (r: UpdateRequest)
    ensures r.url == TextOr(apiUrl, "http://localhost:4000") + "/api/users/" + userId
    ensures token.Present? ==> r.authorization == "Bearer " + token.value
    ensures token.Missing? ==> r.authorization == "Bearer undefined"
    ensures token.Null? ==> r.authorization == "Bearer null"
    ensures r.body.languages == SplitList(f.languages) && r.body.expertise == SplitList(f.expertise)
    ensures r.body.name == f.name && r.body.bio == f.bio && r.body.profilePic == f.profilePic
    ensures r.body.travelPreferences == f.travelPreferences
    ensures r.body.dailyRate == RateOf(f.dailyRate)
  {
    UpdateRequest(TextOr(apiUrl, "http://localhost:4000") + "/api/users/" + userId,
                  "Bearer " + AuthContext.TokenText(token),
                  UpdateBody(f.name, f.bio, f.profilePic, SplitList(f.languages), SplitList(f.expertise),
                             RateOf(f.dailyRate), f.travelPreferences))
  }

  /** The pieces a joined list splits into: the first item as is, every
      later one behind the blank of the separator. */
  function Pieces(xs: seq<string>): (r: seq<string>)
    ensures |r| == |xs|
  {
    seq(|xs|, i requires 0 <= i < |xs| => if i == 0 then xs[0] else " " + xs[i])
  }

  /** The items a list can hold and still come back from the form intact. */
  predicate PlainItems(xs: seq<string>)
  {
    forall i :: 0 <= i < |xs| ==> ',' !in xs[i] && NoSurroundingSpace(xs[i])
  }

  /** Joining two or more items: the first, a comma, then the rest behind
      a blank. */
  lemma JoinListCons(xs: seq<string>)
    requires |xs| >= 2
    ensures JoinList(xs) == xs[0] + [','] + (" " + JoinList(xs[1..]))
  {
    assert JoinList(xs) == xs[0] + ListSeparator + JoinList(xs[1..]);
    assert ListSeparator == [','] + " ";
  }

  /** A leading blank is glued to the first piece. */
  lemma SplitAfterBlank(j: string)
    ensures Split(" " + j, ',') == [" " + Split(j, ',')[0]] + Split(j, ',')[1..]
  {
    assert (" " + j)[1..] == j;
    assert (" " + j)[0] == ' ';
  }

  /** The pieces of a list are its first item's piece followed by the
      pieces of the rest, the first of those behind a blank. */
  lemma PiecesCons(xs: seq<string>)
    requires |xs| >= 2
    ensures Pieces(xs) == [xs[0]] + [" " + Pieces(xs[1..])[0]] + Pieces(xs[1..])[1..]
  {
    var tail := Pieces(xs[1..]);
    var rhs := [xs[0]] + [" " + tail[0]] + tail[1..];
    assert |rhs| == |xs|;
    forall i | 0 <= i < |xs| ensures Pieces(xs)[i] == rhs[i] {
      if i >= 2 {
        assert rhs[i] == tail[i - 1];
      }
    }
  }

  lemma {:induction false} SplitJoinedList(xs: seq<string>)
    requires |xs| >= 1
    requires forall i :: 0 <= i < |xs| ==> ',' !in xs[i]
    ensures Split(JoinList(xs), ',') == Pieces(xs)
  {
    if |xs| == 1 {
      SplitWithoutSeparator(xs[0], ',');
    } else {
      var tail := xs[1..];
      var j := JoinList(tail);
      SplitJoinedList(tail);
      JoinListCons(xs);
      SplitAtSeparator(xs[0], " " + j, ',');
      SplitWithoutSeparator(xs[0], ',');
      SplitAfterBlank(j);
      PiecesCons(xs);
    }
  }

  /** A non-empty list of plain items survives being shown in the form and
      submitted unchanged. */
  lemma ListRoundTrip(xs: seq<string>)
    requires |xs| >= 1 && PlainItems(xs)
    ensures SplitList(JoinList(xs)) == xs
  {
    SplitJoinedList(xs);
    forall i | 0 <= i < |xs| ensures SplitList(JoinList(xs))[i] == xs[i] {
      RoundTripAt(xs, i);
    }
  }

  /** One item of the round trip: its piece, trimmed, is the item. */
  lemma RoundTripAt(xs: seq<string>, i: nat)
    requires i < |xs| && PlainItems(xs)
    requires Split(JoinList(xs), ',') == Pieces(xs)
    ensures i < |SplitList(JoinList(xs))| && SplitList(JoinList(xs))[i] == xs[i]
  {
    var pieces := SplitList(JoinList(xs));
    assert pieces[i] == Trim(Pieces(xs)[i]);
    TrimFixes(xs[i]);
  }

  /** An empty list is submitted as one empty item. */
  lemma EmptyListSubmitsBlank()
    ensures SplitList(JoinList([])) == [""]
  {
    assert SplitList("")[0] == Trim("");
  }

  /** Submitting the untouched form sends back the user's own lists,
      provided they are non-empty and plain. */
  lemma UntouchedFormResubmitsLists(apiUrl: Option<string>, token: AuthContext.Field<string>, u: User)
    requires |u.languages| >= 1 && PlainItems(u.languages)
    requires u.expertise.Some? && |u.expertise.value| >= 1 && PlainItems(u.expertise.value)
    ensures SubmitRequest(apiUrl, u.id, token, InitForm(u)).body.languages == u.languages
    ensures SubmitRequest(apiUrl, u.id, token, InitForm(u)).body.expertise == u.expertise.value
  {
    ListRoundTrip(u.languages);
    ListRoundTrip(u.expertise.value);
  }

  /** The server's answer: an exception (request failed, body not JSON)
      with its message, or the `ok` flag with the body's `message` and
      `data`. */
  datatype SaveReply = SaveThrew(error: Option<string>) | SaveReply(ok: bool, message: Option<string>, data: Option<User>)

  /** Whether `onSaved` was called, and with what. */
  datatype SavedCall = NotCalled | CalledWith(data: Option<User>)

  datatype SubmitEffect = SubmitEffect(saved: SavedCall, toast: Toast, loading: bool)

  /** The end of `handleSubmit`: on ok the parent is handed `data`; a
      non-ok answer throws its message, and any exception shows its
      message or "Update failed"; `loading` is cleared either way. */
  function FinishSubmit(reply: SaveReply): (e: SubmitEffect)
    ensures !e.loading
    ensures e.saved.CalledWith? <==> reply.SaveReply? && reply.ok
    ensures e.saved.CalledWith? ==> e.saved.data == reply.data && e.toast == SuccessToast("Profile updated successfully")
    ensures reply.SaveReply? && !reply.ok ==> e.toast == ErrorToast(TextOr(reply.message, "Update failed"))
    ensures reply.SaveThrew? ==> e.toast == ErrorToast(TextOr(reply.error, "Update failed"))
  {
    match reply
    case SaveThrew(err) => SubmitEffect(NotCalled, ErrorToast(TextOr(err, "Update failed")), false)
    case SaveReply(ok, message, data) =>
      if ok then SubmitEffect(CalledWith(data), SuccessToast("Profile updated successfully"), false)
      else SubmitEffect(NotCalled, ErrorToast(TextOr(message, "Update failed")), false)
  }
}
