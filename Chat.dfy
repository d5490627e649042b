/** The chat message record that every chat component passes around (`OpenRouterMessage`). */
module Chat {
  import opened Text
  import opened Common

  datatype Role = User | Assistant | System

  datatype Message = Message(role: Role, content: string)

  /** `history.filter(m => m.role === 'user').map(m => m.content)`. */
  function UserContents(h: seq<Message>): (r: seq<string>)
    ensures |r| <= |h|
  {
    if h == [] then []
    else (if h[0].role == User then [h[0].content] else []) + UserContents(h[1..])
  }

  /** The user entries of `h`, in order, are exactly what `UserContents` keeps. */
  lemma {:induction false} UserContentsMembers(h: seq<Message>, x: string)
    ensures x in UserContents(h) <==> Message(User, x) in h
  {
    if h != [] {
      UserContentsMembers(h[1..], x);
      assert h == [h[0]] + h[1..];
    }
  }

  lemma {:induction false} UserContentsAppend(a: seq<Message>, b: seq<Message>)
    ensures UserContents(a + b) == UserContents(a) + UserContents(b)
  {
    if a == [] {
      assert a + b == b;
    } else {
      assert (a + b)[0] == a[0];
      assert (a + b)[1..] == a[1..] + b;
      UserContentsAppend(a[1..], b);
    }
  }

  /** Assistant and system turns never show up among the user contents. */
  lemma NonUserTurnIgnored(h: seq<Message>, m: Message)
    requires m.role != User
    ensures UserContents(h + [m]) == UserContents(h)
  {
    UserContentsAppend(h, [m]);
    assert [m][1..] == [];
  }

  function MapNormalize(xs: seq<string>): (r: seq<string>)
    ensures |r| == |xs|
    ensures forall i :: 0 <= i < |xs| ==> r[i] == Normalize(xs[i])
  {
    seq(|xs|, i requires 0 <= i < |xs| => Normalize(xs[i]))
  }

  function MapLower(xs: seq<string>): (r: seq<string>)
    ensures |r| == |xs|
    ensures forall i :: 0 <= i < |xs| ==> r[i] == Lower(xs[i])
  {
    seq(|xs|, i requires 0 <= i < |xs| => Lower(xs[i]))
  }
}
