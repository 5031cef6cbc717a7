/**
 * The profile screen's comment box: a text field bound to `newComment` and
 * a newest-first list `comments`, changed only by the "Post Comment" button.
 */
module Profile {
  import opened Text

  /** The two @State fields of the profile screen, read as one value. */
  datatype ProfileState = ProfileState(newComment: string, comments: seq<string>)

  /** A user action on the screen: typing into the field, or tapping "Post Comment". */
  datatype Action = Type(text: string) | TapPost

  /** `a` is what remains of `b` once some entries are put in front of it. */
  predicate IsSuffixOf<T(==)>(a: seq<T>, b: seq<T>) {
    |a| <= |b| && b[|b| - |a|..] == a
  }

  /** A suffix of a suffix is a suffix. */
  lemma SuffixOfSuffix<T>(a: seq<T>, b: seq<T>, c: seq<T>)
    requires IsSuffixOf(a, b) && IsSuffixOf(b, c)
    ensures IsSuffixOf(a, c)
  {
    assert c[|c| - |b|..][|b| - |a|..] == c[|c| - |a|..];
  }

  /** The screen as it first appears: an empty field and no comments. */
  function Initial(): (p: ProfileState)
    ensures p.newComment == "" && p.comments == []
  {
    ProfileState("", [])
  }

  /** The button's guard: the field is not empty once blanks are trimmed from both ends. */
  predicate CanPost(text: string)
    ensures CanPost(text) <==> !AllBlank(text)
  {
    TrimEmptyIffAllBlank(text);
    Trim(text) != []
  }

  /**
   * The state after tapping "Post Comment": a field that is not blank
   * throughout is put, untrimmed, in front of the comments and cleared;
   * a blank or empty field changes nothing.
   */
  function AfterPost(p: ProfileState): (q: ProfileState)
    ensures AllBlank(p.newComment) <==> q == p
    ensures |q.comments| == |p.comments| + (if AllBlank(p.newComment) then 0 else 1)
    ensures !AllBlank(p.newComment) ==> q.comments[0] == p.newComment && q.newComment == ""
    ensures IsSuffixOf(p.comments, q.comments)
  {
    TrimEmptyIffAllBlank(p.newComment);
    if CanPost(p.newComment) then ProfileState("", [p.newComment] + p.comments) else p
  }

  /** The state after one action; typing replaces the field and leaves the comments alone. */
  function Step(p: ProfileState, a: Action): (q: ProfileState)
    ensures IsSuffixOf(p.comments, q.comments) && |q.comments| <= |p.comments| + 1
    ensures a.Type? ==> q.newComment == a.text && q.comments == p.comments
    ensures a.TapPost? && !AllBlank(p.newComment) ==> q.comments == [p.newComment] + p.comments && q.newComment == ""
    ensures a.TapPost? && AllBlank(p.newComment) ==> q == p
  {
    match a
    case Type(text) => p.(newComment := text)
    case TapPost => AfterPost(p)
  }

  /** The state after a sequence of actions, in order. */
  function Run(p: ProfileState, actions: seq<Action>): ProfileState
    decreases |actions|
  {
    if actions == [] then p else Run(Step(p, actions[0]), actions[1..])
  }

  // ---------------------------------------------------------------------
  // Properties of the model

  /** A successful post adds exactly one entry; the old entries follow it in their order, one index later. */
  lemma PostShiftsOldEntries(p: ProfileState)
    requires !AllBlank(p.newComment)
    ensures |AfterPost(p).comments| == |p.comments| + 1
    ensures forall k :: 0 <= k < |p.comments| ==> AfterPost(p).comments[k + 1] == p.comments[k]
  {
  }

  /** Posting a comment that is already in the list still puts it in front: duplicates are kept. */
  lemma DuplicatesKept(p: ProfileState)
    requires p.newComment in p.comments && !AllBlank(p.newComment)
    ensures AfterPost(p).comments == [p.newComment] + p.comments
    ensures multiset(AfterPost(p).comments)[p.newComment] == multiset(p.comments)[p.newComment] + 1
  {
  }

  /** Spaces and tabs alone post nothing, and the field keeps them. */
  lemma BlankFieldIsNoOp(comments: seq<string>)
    ensures AfterPost(ProfileState("  ", comments)) == ProfileState("  ", comments)
    ensures AfterPost(ProfileState(" \t ", comments)) == ProfileState(" \t ", comments)
    ensures AfterPost(ProfileState("", comments)) == ProfileState("", comments)
  {
  }

  /** What is stored is the text as typed, surrounding blanks included; a newline is not a blank. */
  lemma UntrimmedTextStored(comments: seq<string>)
    ensures AfterPost(ProfileState("  hi\t", comments)) == ProfileState("", ["  hi\t"] + comments)
    ensures AfterPost(ProfileState("\n", comments)) == ProfileState("", ["\n"] + comments)
  {
  }

  /** Typing "a", posting, typing "b", posting, from the start, leaves the list newest-first. */
  lemma NewestFirst()
    ensures Step(Step(Step(Step(Initial(), Type("a")), TapPost), Type("b")), TapPost) == ProfileState("", ["b", "a"])
  {
    var p2 := Step(Step(Initial(), Type("a")), TapPost);
    assert p2 == ProfileState("", ["a"]) by { assert !IsBlank("a"[0]); }
    assert Step(Step(p2, Type("b")), TapPost) == ProfileState("", ["b", "a"]) by { assert !IsBlank("b"[0]); }
  }

  /**
   * The comment list never shrinks: whatever the user does, the old list
   * survives unchanged at the end of the new one, and each action adds at
   * most one entry.
   */
  lemma {:induction false} CommentsNeverShrink(p: ProfileState, actions: seq<Action>)
    ensures IsSuffixOf(p.comments, Run(p, actions).comments)
    ensures |Run(p, actions).comments| <= |p.comments| + |actions|
    decreases |actions|
  {
    if actions != [] {
      var p' := Step(p, actions[0]);
      CommentsNeverShrink(p', actions[1..]);
      assert Run(p, actions) == Run(p', actions[1..]);
      SuffixOfSuffix(p.comments, p'.comments, Run(p, actions).comments);
    }
  }

  // ---------------------------------------------------------------------
  // The view, whose @State fields are updated in place

  class ProfileView {
    var newComment: string
    var comments: seq<string>

    /** The view's fields, read as one value. */
    function State(): ProfileState
      reads this
    {
      ProfileState(newComment, comments)
    }

    constructor ()
      ensures State() == Initial()
    {
      newComment := "";
      comments := [];
    }

    /** The text field's binding: what the user types becomes `newComment`. */
    method Type(text: string)
      modifies this`newComment
      ensures newComment == text && comments == old(comments)
    {
      newComment := text;
    }

    /** The "Post Comment" button's action. */
    method Post()
      modifies this
      ensures State() == AfterPost(old(State()))
      ensures old(AllBlank(newComment)) ==> newComment == old(newComment) && comments == old(comments)
      ensures !old(AllBlank(newComment)) ==> comments == [old(newComment)] + old(comments) && newComment == ""
    {
      if Trim(newComment) != [] {
        comments := [newComment] + comments;
        newComment := "";
      }
      TrimEmptyIffAllBlank(old(newComment));
    }
  }
}
