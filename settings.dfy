// The profile settings page: it pre-fills the form from the stored user
// (reshaping the birth date), writes a successful profile update back into the
// `auth` slice, and enables the avatar buttons only while a file is chosen.

module Settings {
  import opened Wrappers
  import opened Text
  import opened UserSlice

  /** `user.birthdate.slice(0, 10).split("-").reverse().join("/")`. */
  function ReshapeBirthdate(birthdate: string): string {
    var head := if |birthdate| <= 10 then birthdate else birthdate[..10];
    Join(Reverse(Split(head, '-')), "/")
  }

  /** Splitting on a character and joining with the same character gives the text back. */
  lemma {:induction false} JoinSplit(s: string, c: char)
    ensures Join(Split(s, c), [c]) == s
    decreases |s|
  {
    if c in s {
      var k := IndexOf(s, c);
      var a, rest := s[..k], s[k + 1..];
      var p := Split(rest, c);
      JoinSplit(rest, c);
      assert Split(s, c) == [a] + p;
      JoinCons(a, p, [c]);
      CutAt(s, k);
      calc {
        Join(Split(s, c), [c]);
        Join([a] + p, [c]);
        a + [c] + Join(p, [c]);
        a + [c] + rest;
        s;
      }
    }
  }

  /** Joining a part in front of a non-empty list puts one separator between them. */
  lemma JoinCons(a: string, p: seq<string>, sep: string)
    requires p != []
    ensures Join([a] + p, sep) == a + sep + Join(p, sep)
  {
    assert ([a] + p)[1..] == p;
  }

  lemma CutAt(s: string, k: nat)
    requires k < |s|
    ensures s == s[..k] + [s[k]] + s[k + 1..]
  {
  }

  /** The first separator ends the first part. */
  lemma SplitFirst(a: string, c: char, rest: string)
    requires c !in a
    ensures Split(a + [c] + rest, c) == [a] + Split(rest, c)
  {
    var s := a + [c] + rest;
    assert s[|a|] == c;
    var k := IndexOf(s, c);
    assert forall j :: 0 <= j < |a| ==> s[j] != c;
    assert forall j :: 0 <= j < k ==> s[..k][j] == s[j];
    assert s[..k] == a;
    assert s[k + 1..] == rest;
  }

  lemma SplitThree(y: string, m: string, d: string)
    requires '-' !in y && '-' !in m && '-' !in d
    ensures Split(y + "-" + m + "-" + d, '-') == [y, m, d]
  {
    SplitFirst(m, '-', d);
    assert y + "-" + m + "-" + d == y + ['-'] + (m + ['-'] + d);
    SplitFirst(y, '-', m + ['-'] + d);
  }

  /** Three parts joined with `/`. */
  lemma JoinThree(a: string, b: string, c: string)
    ensures Join([a, b, c], "/") == a + "/" + b + "/" + c
  {
    assert [a, b, c][1..] == [b, c];
    assert [b, c][1..] == [c];
    assert Join([c], "/") == c;
    assert Join([b, c], "/") == b + "/" + c;
  }

  /** The dashed date without separators in its parts, split on `-`. */
  lemma SplitIsoDate(year: string, month: string, day: string)
    requires AllDigits(year) && AllDigits(month) && AllDigits(day)
    ensures Split(year + "-" + month + "-" + day, '-') == [year, month, day]
  {
    assert forall i :: 0 <= i < |year| ==> year[i] != '-';
    assert forall i :: 0 <= i < |month| ==> month[i] != '-';
    assert forall i :: 0 <= i < |day| ==> day[i] != '-';
    SplitThree(year, month, day);
  }

  /** An ISO `YYYY-MM-DD…` date is shown as `DD/MM/YYYY`; anything after the tenth character is ignored. */
  lemma ReshapeIsoDate(year: string, month: string, day: string, rest: string)
    requires |year| == 4 && |month| == 2 && |day| == 2
    requires AllDigits(year) && AllDigits(month) && AllDigits(day)
    ensures ReshapeBirthdate(year + "-" + month + "-" + day + rest) == day + "/" + month + "/" + year
  {
    var full := year + "-" + month + "-" + day + rest;
    var date := year + "-" + month + "-" + day;
    assert full == date + rest;
    assert full[..10] == date;
    var head := if |full| <= 10 then full else full[..10];
    assert head == date;
    SplitIsoDate(year, month, day);
    assert Reverse([year, month, day]) == [day, month, year];
    JoinThree(day, month, year);
    assert ReshapeBirthdate(full) == Join(Reverse(Split(date, '-')), "/");
  }

  /** Values the profile form is pre-filled with (`undefined` when no user is stored). */
  datatype Prefill = Prefill(
    firstname: Option<string>,
    lastname: Option<string>,
    birthdate: Option<string>,
    genre: Option<string>)

  function PrefillFrom(user: Option<User>): (p: Prefill)
    ensures user.None? ==> p == Prefill(None, None, None, None)
    ensures user.Some? ==> p.firstname == Some(user.value.firstname) && p.lastname == Some(user.value.lastname)
                           && p.genre == Some(user.value.genre)
                           && p.birthdate == Some(ReshapeBirthdate(user.value.birthdate))
  {
    match user
    case None => Prefill(None, None, None, None)
    case Some(u) => Prefill(Some(u.firstname), Some(u.lastname), Some(ReshapeBirthdate(u.birthdate)), Some(u.genre))
  }

  /** A chosen avatar file. */
  datatype UploadFile = UploadFile(uid: string, name: string, thumbUrl: Option<string>)

  /** How the profile update call ended: it threw, or answered with a status and `data["0"]`. */
  datatype ProfileReply = Thrown | Answered(status: int, first: User)

  datatype Notice = SuccessMessage | ErrorMessage

  class SettingsPage {
    var fileList: Option<seq<UploadFile>>
    const store: UserStore

    constructor (store: UserStore)
      ensures this.store == store && fileList.None?
    {
      this.store := store;
      fileList := None;
    }

    /** Both avatar buttons are disabled while `fileList` is `undefined` or empty. */
    predicate ButtonsDisabled()
      reads this
    {
      fileList.None? || fileList.value == []
    }

    /** The "Upload" placeholder is drawn under the same condition. */
    predicate ShowsPlaceholder()
      reads this
    {
      fileList.None? || fileList.value == []
    }

    /** `handleChange`: the upload widget's new list replaces the old one. */
    method HandleChange(newFileList: seq<UploadFile>)
      modifies this
      ensures fileList == Some(newFileList)
      ensures ButtonsDisabled() <==> newFileList == []
    {
      fileList := Some(newFileList);
    }

    /** `handleCancel`: forget the chosen files. */
    method HandleCancel()
      modifies this
      ensures fileList.None?
      ensures ButtonsDisabled() && ShowsPlaceholder()
    {
      fileList := None;
    }

    /** `handleSubmit`: only a 200 answer dispatches `setUser(data["0"])`; otherwise the store is left alone. */
    method HandleSubmit(reply: ProfileReply) returns (notice: Notice)
      modifies store
      ensures reply.Answered? && reply.status == 200 ==>
                store.State() == Reduce(old(store.State()), SetUser(reply.first)) && notice == SuccessMessage
      ensures !(reply.Answered? && reply.status == 200) ==>
                store.State() == old(store.State()) && notice == ErrorMessage
    {
      if reply.Answered? && reply.status == 200 {
        store.SetUser(reply.first);
        notice := SuccessMessage;
      } else {
        notice := ErrorMessage;
      }
    }
  }
}
