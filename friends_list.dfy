/** The friends screen (components/FriendsList.tsx): the initials shown in a
    friend's avatar, the search over the friend list, and the checks made
    before a friend request is sent. */
module FriendsList {
  import opened Base
  import opened Text
  import opened Types

  // ------------------------------------------------- initials

  /** `s.split(' ')`: the pieces between single spaces, empty pieces included, so
      there is always at least one. */
  function SplitSpaces(s: string): (r: seq<string>)
    ensures |r| >= 1
    ensures forall k :: 0 <= k < |r| ==> ' ' !in r[k]
    decreases |s|
  {
    if s == [] then [""]
    else if s[0] == ' ' then [""] + SplitSpaces(s[1..])
    else
      var t := SplitSpaces(s[1..]);
      [[s[0]] + t[0]] + t[1..]
  }

  /** `pieces.join(' ')`. */
  function JoinSpaces(pieces: seq<string>): string
    decreases |pieces|
  {
    if pieces == [] then "" else if |pieces| == 1 then pieces[0] else pieces[0] + " " + JoinSpaces(pieces[1..])
  }

  /** `.map(word => word[0]).join('')`: the first character of every piece; an empty
      piece gives `undefined`, which `join` writes as nothing. */
  function Heads(pieces: seq<string>): string
    decreases |pieces|
  {
    if pieces == [] then "" else (if pieces[0] == "" then "" else [pieces[0][0]]) + Heads(pieces[1..])
  }

  /** The characters that begin a word: not a space, and first or after a space.
      `afterSpace` says whether the character before `s` was a space (or there was
      none). */
  function StartsFrom(s: string, afterSpace: bool): string
    decreases |s|
  {
    if s == [] then ""
    else (if s[0] != ' ' && afterSpace then [s[0]] else "") + StartsFrom(s[1..], s[0] == ' ')
  }

  function WordStarts(s: string): string
  {
    StartsFrom(s, true)
  }

  /** Joining the pieces with spaces gives back the text. */
  lemma {:induction false} SplitJoin(s: string)
    ensures JoinSpaces(SplitSpaces(s)) == s
    decreases |s|
  {
    if s != [] {
      var t := SplitSpaces(s[1..]);
      SplitJoin(s[1..]);
      if s[0] == ' ' {
        assert SplitSpaces(s) == [""] + t;
        assert s == " " + s[1..];
      } else {
        var r := SplitSpaces(s);
        assert r[0] == [s[0]] + t[0] && r[1..] == t[1..];
        if |t| == 1 {
          assert s[1..] == t[0];
          assert s == [s[0]] + s[1..];
        } else {
          assert JoinSpaces(t) == t[0] + " " + JoinSpaces(t[1..]);
          assert JoinSpaces(r) == r[0] + " " + JoinSpaces(r[1..]);
          assert s == [s[0]] + s[1..];
        }
      }
    }
  }

  /** The first characters of the pieces are the characters that begin a word;
      the pieces after the first give those that begin a word after the first
      character. */
  lemma {:induction false} HeadsOfSplit(s: string)
    ensures Heads(SplitSpaces(s)) == StartsFrom(s, true)
    ensures Heads(SplitSpaces(s)[1..]) == StartsFrom(s, false)
    decreases |s|
  {
    if s != [] {
      var t := SplitSpaces(s[1..]);
      HeadsOfSplit(s[1..]);
      if s[0] == ' ' {
        assert SplitSpaces(s) == [""] + t;
        assert SplitSpaces(s)[1..] == t;
      } else {
        var r := SplitSpaces(s);
        assert r[0] == [s[0]] + t[0] && r[1..] == t[1..];
        assert Heads(r) == [s[0]] + Heads(r[1..]);
      }
    }
  }

  /** `s[i]` begins a word: it is not a space, and it follows a space, or it is
      the first character and `afterSpace` says the one before `s` was a space. */
  ghost predicate BeginsWordAfter(s: string, afterSpace: bool, i: int)
  {
    0 <= i < |s| && s[i] != ' ' && (if i == 0 then afterSpace else s[i - 1] == ' ')
  }

  ghost predicate BeginsWord(s: string, i: int)
  {
    BeginsWordAfter(s, true, i)
  }

  /** The `k`-th character of `StartsFrom` is one that begins a word. */
  lemma {:induction false} StartsFromAt(s: string, afterSpace: bool, k: nat)
    requires k < |StartsFrom(s, afterSpace)|
    ensures exists i :: BeginsWordAfter(s, afterSpace, i) && StartsFrom(s, afterSpace)[k] == s[i]
    decreases |s|
  {
    var t := s[1..];
    var rest := StartsFrom(t, s[0] == ' ');
    var head: string := if s[0] != ' ' && afterSpace then [s[0]] else "";
    var r := StartsFrom(s, afterSpace);
    assert r == head + rest;
    if k < |head| {
      assert BeginsWordAfter(s, afterSpace, 0) && r[k] == s[0];
    } else {
      StartsFromAt(t, s[0] == ' ', k - |head|);
      var m :| BeginsWordAfter(t, s[0] == ' ', m) && rest[k - |head|] == t[m];
      assert r[k] == s[m + 1];
      assert BeginsWordAfter(s, afterSpace, m + 1);
    }
  }

  /** When the first non-space character begins a word, it comes first. */
  lemma {:induction false} StartsFromFirst(s: string, afterSpace: bool, j: nat)
    requires BeginsWordAfter(s, afterSpace, j) && forall i :: 0 <= i < j ==> s[i] == ' '
    ensures |StartsFrom(s, afterSpace)| > 0 && StartsFrom(s, afterSpace)[0] == s[j]
    decreases j
  {
    if j > 0 {
      var t := s[1..];
      assert s[0] == ' ';
      assert t[j - 1] == s[j];
      assert forall i :: 0 <= i < j - 1 ==> t[i] == s[i + 1];
      assert BeginsWordAfter(t, true, j - 1);
      StartsFromFirst(t, true, j - 1);
    }
  }

  /** getUserInitials. A non-empty name gives the first letters of its words,
      uppercased, at most two; otherwise a non-empty email gives its first
      character uppercased; otherwise 'U'. */
  function Initials(name: Option<string>, email: Option<string>): (r: string)
    ensures |r| <= 2
  {
    if name.Some? && name.value != "" then Take(ToUpper(Heads(SplitSpaces(name.value))), 2)
    else if email.Some? && email.value != "" then [ToUpperChar(email.value[0])]
    else "U"
  }

  /** Without a name the initials are one character: the email's first,
      uppercased, or 'U' without an email either. */
  lemma InitialsWithoutName(name: Option<string>, email: Option<string>)
    requires name.None? || name.value == ""
    ensures email.Some? && email.value != "" ==> Initials(name, email) == [ToUpperChar(email.value[0])]
    ensures email.None? || email.value == "" ==> Initials(name, email) == "U"
  {
  }

  /** The initials of a name are the uppercased characters that begin its words,
      at most two, each of them one that begins a word, and the first of them is
      the name's first non-space character. */
  lemma InitialsOfName(name: string, email: Option<string>)
    requires name != ""
    ensures Initials(Some(name), email) == Take(ToUpper(WordStarts(name)), 2)
    ensures forall k :: 0 <= k < |Initials(Some(name), email)| ==>
      exists i :: BeginsWord(name, i) && Initials(Some(name), email)[k] == ToUpperChar(name[i])
    ensures forall j :: BeginsWord(name, j) && (forall i :: 0 <= i < j ==> name[i] == ' ') ==>
      Initials(Some(name), email) != "" && Initials(Some(name), email)[0] == ToUpperChar(name[j])
  {
    HeadsOfSplit(name);
    var w := WordStarts(name);
    var r := Initials(Some(name), email);
    assert r == Take(ToUpper(w), 2);
    forall k | 0 <= k < |r| ensures exists i :: BeginsWord(name, i) && r[k] == ToUpperChar(name[i]) {
      assert r[k] == ToUpperChar(w[k]);
      StartsFromAt(name, true, k);
      var i :| BeginsWordAfter(name, true, i) && w[k] == name[i];
      assert BeginsWord(name, i);
    }
    forall j | BeginsWord(name, j) && (forall i :: 0 <= i < j ==> name[i] == ' ') ensures r != "" && r[0] == ToUpperChar(name[j]) {
      StartsFromFirst(name, true, j);
    }
  }

  // ------------------------------------------------- search

  /** filteredFriends' test: the query, lower-cased, occurs in the lower-cased
      display name or email; a missing field never matches. */
  predicate MatchesQuery(f: FriendLink, query: string)
  {
    (f.displayName.Some? && Contains(ToLower(f.displayName.value), ToLower(query)))
    || (f.email.Some? && Contains(ToLower(f.email.value), ToLower(query)))
  }

  function FilteredFriends(friends: seq<FriendLink>, query: string): (r: seq<FriendLink>)
    ensures |r| <= |friends|
  {
    Keep(friends, f => MatchesQuery(f, query))
  }

  /** The search keeps the friends' order, keeps exactly the friends whose name or
      email contains the query in any letter case, drops a friend with neither
      field whatever the query, and with an empty query keeps every friend that
      has one of them. */
  lemma FilteredFriendsFacts(friends: seq<FriendLink>, query: string)
    ensures IsSubsequence(FilteredFriends(friends, query), friends)
    ensures forall f :: f in FilteredFriends(friends, query) <==> f in friends && MatchesQuery(f, query)
    ensures forall f :: f in FilteredFriends(friends, query) ==> f.displayName.Some? || f.email.Some?
    ensures FilteredFriends(friends, query) == FilteredFriends(friends, ToLower(query))
    ensures query == "" ==> forall f :: f in FilteredFriends(friends, query) <==> f in friends && (f.displayName.Some? || f.email.Some?)
  {
    var p := f => MatchesQuery(f, query);
    KeepIsSubsequence(friends, p);
    forall f ensures f in FilteredFriends(friends, query) <==> f in friends && MatchesQuery(f, query) {
      KeepMembers(friends, p, f);
    }
    ToLowerIdempotent(query);
    KeepSame(friends, p, f => MatchesQuery(f, ToLower(query)));
    if query == "" {
      forall f: FriendLink | f.displayName.Some? ensures Contains(ToLower(f.displayName.value), ToLower(query)) {
        ContainsEmpty(ToLower(f.displayName.value));
      }
      forall f: FriendLink | f.email.Some? ensures Contains(ToLower(f.email.value), ToLower(query)) {
        ContainsEmpty(ToLower(f.email.value));
      }
    }
  }

  // ------------------------------------------------- friend requests

  /** What handleSendFriendRequest does before its `sendFriendRequest` call:
      nothing, the 'cannot add yourself' alert, or a request from the user to an
      email. */
  datatype RequestOutcome = Ignored | RejectedSelf | SendTo(fromUserId: string, toEmail: string)

  /** handleSendFriendRequest as written: a blank input or no user does nothing;
      the input is compared with the user's email, both lower-cased but the input
      untrimmed; the email sent is the input trimmed and lower-cased. A user
      without an email is never refused. */
  function SendRequest(input: string, user: Option<AuthUser>): RequestOutcome
  {
    if IsBlank(input) || user.None? then Ignored
    else if user.value.email.Some? && ToLower(input) == ToLower(user.value.email.value) then RejectedSelf
    else SendTo(user.value.uid, ToLower(Trim(input)))
  }

  /** A blank input or a missing user does nothing; an input equal in letter case
      to the user's email is refused; any other input is sent from the user,
      trimmed and lower-cased. */
  lemma SendRequestFacts(input: string, user: Option<AuthUser>)
    ensures var r := SendRequest(input, user);
      (r == Ignored <==> IsBlank(input) || user.None?)
      && (r == RejectedSelf <==> !IsBlank(input) && user.Some? && user.value.email.Some?
                                 && ToLower(input) == ToLower(user.value.email.value))
      && (r.SendTo? ==> r.fromUserId == user.value.uid && r.toEmail == ToLower(Trim(input))
                        && r.toEmail != "" && ToLower(r.toEmail) == r.toEmail)
  {
    if !IsBlank(input) {
      ToLowerIdempotent(Trim(input));
    }
  }

  lemma LetterNotSpace()
    ensures !IsSpace('a')
  {
  }

  lemma LetterTrimStart()
    ensures TrimStart("a") == "a"
  {
    LetterNotSpace();
  }

  lemma LetterTrimEnd()
    ensures TrimEnd("a") == "a"
  {
    LetterNotSpace();
  }

  lemma PaddedTrimStart()
    ensures TrimStart(" a") == "a"
  {
    assert " a"[1..] == "a";
    LetterTrimStart();
  }

  /** " a" trims to "a". */
  lemma PaddedTrim()
    ensures Trim(" a") == "a" && !IsBlank(" a")
  {
    PaddedTrimStart();
    LetterTrimEnd();
  }

  /** Lower-casing keeps " a" and "a" as they are. */
  lemma PaddedLower()
    ensures ToLower(" a") == " a" && ToLower("a") == "a"
  {
    assert ToLowerChar('a') == 'a' && ToLowerChar(' ') == ' ';
  }

  /** The check compares the untrimmed input: " a" from the user whose email is
      "a" is not refused and sends a request to the user's own email. */
  lemma SelfRequestSlipsThrough()
    ensures var user := Some(AuthUser("u1", None, Some("a")));
      SendRequest(" a", user) == SendTo("u1", "a")
  {
    PaddedTrim();
    PaddedLower();
    assert " a" != "a";
  }

  /** The check as evidently intended: the trimmed input is compared. */
  function SendRequestTrimmed(input: string, user: Option<AuthUser>): RequestOutcome
  {
    if IsBlank(input) || user.None? then Ignored
    else if user.value.email.Some? && ToLower(Trim(input)) == ToLower(user.value.email.value) then RejectedSelf
    else SendTo(user.value.uid, ToLower(Trim(input)))
  }

  /** With the trimmed comparison no request goes to the user's own email, in any
      letter case, and the outcome agrees with the code as written whenever the
      input has no surrounding white space. */
  lemma SendRequestTrimmedFacts(input: string, user: Option<AuthUser>)
    ensures var r := SendRequestTrimmed(input, user);
      (r.SendTo? ==> user.Some? && r.fromUserId == user.value.uid && r.toEmail == ToLower(Trim(input))
                     && (user.value.email.Some? ==> r.toEmail != ToLower(user.value.email.value)))
      && (r == Ignored <==> IsBlank(input) || user.None?)
    ensures Trim(input) == input ==> SendRequestTrimmed(input, user) == SendRequest(input, user)
  {
  }
}
