/**
 * Object paths of portal requests and sessions (main.c `prepare_signal_handle`
 * and `new_session_path`).
 *
 * A portal answers a request on the object path
 * `/org/freedesktop/portal/desktop/request/SENDER/TOKEN`, where SENDER is the
 * caller's unique bus name without its leading ':' and with every '.' turned
 * into '_', and TOKEN is the `handle_token` the caller chose.  The client has
 * to compute the same path to subscribe to the Response signal before the
 * request goes out.
 */
module ObjectPaths {
  import opened PortalTypes
  import Decimal

  const RequestBase: string := "/org/freedesktop/portal/desktop/request"
  const SessionBase: string := "/org/freedesktop/portal/desktop/session"

  function Underscored(c: char): char {
    if c == '.' then '_' else c
  }

  /** Every '.' of `s` replaced by '_', everything else kept in place. */
  function ReplaceDots(s: string): (r: string)
    ensures |r| == |s| && Free(r, '.')
    ensures forall i :: 0 <= i < |s| ==> r[i] == Underscored(s[i])
  {
    if s == [] then [] else [Underscored(s[0])] + ReplaceDots(s[1..])
  }

  /**
   * The SENDER component derived from a unique bus name: the first character
   * (the ':') is dropped and each '.' becomes '_' at the same position.
   */
  function Sanitize(uniqueName: string): (r: string)
    requires |uniqueName| >= 1
    ensures |r| == |uniqueName| - 1 && Free(r, '.')
    ensures forall i :: 0 <= i < |r| && uniqueName[i + 1] == '.' ==> r[i] == '_'
    ensures forall i :: 0 <= i < |r| && uniqueName[i + 1] != '.' ==> r[i] == uniqueName[i + 1]
  {
    ReplaceDots(uniqueName[1..])
  }

  /** The path on which the portal emits the Response of the request `token`. */
  function RequestPath(uniqueName: string, token: string): (path: string)
    requires |uniqueName| >= 1
  {
    RequestBase + "/" + Sanitize(uniqueName) + "/" + token
  }

  /**
   * A request path starts with the request base and a '/', is one character
   * shorter than base, '/', unique name, '/' and token would be (the ':' is
   * gone), and ends with '/' and the token.
   */
  lemma RequestPathShape(uniqueName: string, token: string)
    requires |uniqueName| >= 1
    ensures var p := RequestPath(uniqueName, token);
            && |p| == |RequestBase| + |uniqueName| + 1 + |token|
            && p[..|RequestBase| + 1] == RequestBase + "/"
            && p[|p| - |token| - 1] == '/' && p[|p| - |token|..] == token
  {
    var p := RequestPath(uniqueName, token);
    assert p == (RequestBase + "/") + (Sanitize(uniqueName) + "/") + token;
  }

  /**
   * The sanitising loop: the name minus its first character is copied into a
   * NUL-terminated buffer, which is rewritten in place up to the terminator.
   */
  method SanitizedSender(uniqueName: string) returns (sender: string)
    requires |uniqueName| >= 1 && CString(uniqueName)
    ensures sender == Sanitize(uniqueName)
  {
    var n := |uniqueName| - 1;
    var buf := new char[n + 1](k requires 0 <= k <= n => if k < n then uniqueName[k + 1] else '\0');
    var i := 0;
    while buf[i] != '\0'
      invariant 0 <= i <= n
      invariant forall k :: 0 <= k < i ==> buf[k] == Underscored(uniqueName[k + 1])
      invariant forall k :: i <= k < n ==> buf[k] == uniqueName[k + 1]
      invariant buf[n] == '\0'
      decreases n - i
    {
      if buf[i] == '.' {
        buf[i] := '_';
      }
      i := i + 1;
    }
    sender := buf[..n];
  }

  /** `prepare_signal_handle`: the Response path for `token`. */
  method PrepareSignalHandle(token: string, uniqueName: string) returns (handle: string)
    requires |uniqueName| >= 1 && CString(uniqueName) && CString(token)
    ensures handle == RequestPath(uniqueName, token)
  {
    var sender := SanitizedSender(uniqueName);
    handle := RequestBase + "/" + sender + "/" + token;
  }

  /**
   * Two Response paths coincide exactly when the senders sanitise alike and
   * the tokens are equal, as long as the names carry no '/'.  In particular a
   * fresh token gives a path no earlier request of the same connection used.
   */
  lemma RequestPathDeterminesParts(u1: string, t1: string, u2: string, t2: string)
    requires |u1| >= 1 && |u2| >= 1 && Free(u1, '/') && Free(u2, '/')
    ensures RequestPath(u1, t1) == RequestPath(u2, t2) <==> Sanitize(u1) == Sanitize(u2) && t1 == t2
  {
    var s1, s2 := Sanitize(u1), Sanitize(u2);
    if RequestPath(u1, t1) == RequestPath(u2, t2) {
      var head := RequestBase + "/";
      var r1, r2 := s1 + "/" + t1, s2 + "/" + t2;
      assert RequestPath(u1, t1) == head + r1;
      assert RequestPath(u2, t2) == head + r2;
      assert r1 == (head + r1)[|head|..];
      assert r2 == (head + r2)[|head|..];
      assert r1 == r2;
      forall k | 0 <= k < |s1| ensures s1[k] != '/' {
        assert s1[k] == Underscored(u1[k + 1]);
      }
      forall k | 0 <= k < |s2| ensures s2[k] != '/' {
        assert s2[k] == Underscored(u2[k + 1]);
      }
      // The first '/' of r1 and r2 ends the sender, so the senders have one length.
      assert r1[|s1|] == '/' && r2[|s2|] == '/';
      assert forall k :: 0 <= k < |s1| ==> r1[k] != '/';
      assert forall k :: 0 <= k < |s2| ==> r2[k] != '/';
      assert |s1| == |s2|;
      assert s1 == r1[..|s1|];
      assert s2 == r2[..|s2|];
      assert t1 == r1[|s1| + 1..];
      assert t2 == r2[|s2| + 1..];
    }
  }

  /** `new_session_path`: "%s/%d" of the session base and the token. */
  function SessionPath(token: int32): (p: string)
    ensures |p| > |SessionBase| + 1
    ensures p[..|SessionBase| + 1] == SessionBase + "/"
    ensures token < 0 <==> p[|SessionBase| + 1] == '-'
  {
    SessionBase + "/" + Decimal.Render(token)
  }

  /** The last component of a session path reads back as the token. */
  lemma SessionPathParses(token: int32)
    ensures Decimal.Parse(SessionPath(token)[|SessionBase| + 1..]) == Some(token as int)
  {
    var tail := Decimal.Render(token);
    assert SessionPath(token) == (SessionBase + "/") + tail;
    assert SessionPath(token)[|SessionBase| + 1..] == tail;
    Decimal.ParseRender(token);
  }

  /** Distinct tokens give distinct session paths. */
  lemma SessionPathInjective(a: int32, b: int32)
    ensures SessionPath(a) == SessionPath(b) ==> a == b
  {
    SessionPathParses(a);
    SessionPathParses(b);
  }
}
