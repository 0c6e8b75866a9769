/** hostNameOK: the byte loop against the grammar it stands for. */
module HostNames {
  predicate Digit(c: char) { '0' <= c <= '9' }
  predicate Letter(c: char) { 'a' <= c <= 'z' || 'A' <= c <= 'Z' }
  predicate Alphanumeric(c: char) { Digit(c) || Letter(c) }
  predicate Joint(c: char) { c == '-' || c == '.' }

  predicate Label(s: string) { s != "" && forall k :: 0 <= k < |s| ==> Alphanumeric(s[k]) }

  /** Labels joined by single separators. */
  function Join(labels: seq<string>, joints: seq<char>): string
    requires |labels| == |joints| + 1
    decreases |labels|
  {
    if |labels| == 1 then labels[0] else labels[0] + [joints[0]] + Join(labels[1..], joints[1..])
  }

  ghost predicate Labelled(name: string, labels: seq<string>, joints: seq<char>) {
    && |labels| == |joints| + 1
    && (forall i :: 0 <= i < |labels| ==> Label(labels[i]))
    && (forall i :: 0 <= i < |joints| ==> Joint(joints[i]))
    && Join(labels, joints) == name
  }

  /** The grammar: 2 to 64 characters, labels joined by single '-' or '.', not all digits. */
  ghost predicate HostName(name: string) {
    && 2 <= |name| <= 64
    && (exists labels: seq<string>, joints: seq<char> :: Labelled(name, labels, joints))
    && exists k :: 0 <= k < |name| && !Digit(name[k])
  }

  /** What the loop checks at one position. */
  predicate CharOk(name: string, i: nat)
    requires i < |name|
  {
    Alphanumeric(name[i]) || (Joint(name[i]) && 0 < i < |name| - 1 && !Joint(name[i - 1]))
  }

  predicate CharsOk(name: string) { forall i :: 0 <= i < |name| ==> CharOk(name, i) }

  lemma {:induction false} CharsGiveLabels(name: string) returns (labels: seq<string>, joints: seq<char>)
    requires name != "" && CharsOk(name)
    ensures Labelled(name, labels, joints)
  {
    if k :| 0 <= k < |name| && Joint(name[k]) && forall j :: 0 <= j < k ==> !Joint(name[j]) {
      assert CharOk(name, k);
      var rest := name[k + 1..];
      assert CharOk(name, k + 1);
      forall i | 0 <= i < |rest| ensures CharOk(rest, i) {
        assert CharOk(name, k + 1 + i);
      }
      var ls, js := CharsGiveLabels(rest);
      labels, joints := [name[..k]] + ls, [name[k]] + js;
      assert labels[1..] == ls && joints[1..] == js;
      assert forall i :: 0 <= i < k ==> CharOk(name, i) && name[..k][i] == name[i];
      assert Label(labels[0]);
      assert forall i :: 1 <= i < |labels| ==> labels[i] == ls[i - 1];
      assert name == name[..k] + [name[k]] + rest;
    } else {
      NoJoint(name);
      labels, joints := [name], [];
    }
  }

  /** Without a first separator there is none. */
  lemma NoJoint(name: string)
    requires CharsOk(name) && name != ""
    requires !exists k :: 0 <= k < |name| && Joint(name[k]) && forall j :: 0 <= j < k ==> !Joint(name[j])
    ensures Label(name)
  {
    var k := 0;
    while k < |name|
      invariant k <= |name| && forall j :: 0 <= j < k ==> !Joint(name[j])
    {
      k := k + 1;
    }
    assert forall j :: 0 <= j < |name| ==> CharOk(name, j) && !Joint(name[j]);
  }

  lemma {:induction false} LabelsGiveChars(name: string, labels: seq<string>, joints: seq<char>)
    requires Labelled(name, labels, joints)
    ensures name != "" && CharsOk(name) && !Joint(name[0])
    decreases |labels|
  {
    if |labels| > 1 {
      var rest := Join(labels[1..], joints[1..]);
      LabelsGiveChars(rest, labels[1..], joints[1..]);
      var n := |labels[0]|;
      assert name == labels[0] + [joints[0]] + rest;
      assert Label(labels[0]);
      forall i | 0 <= i < |name| ensures CharOk(name, i) {
        if i < n {
          assert name[i] == labels[0][i];
        } else if i == n {
          assert name[n - 1] == labels[0][n - 1];
        } else {
          assert CharOk(rest, i - n - 1);
          assert i > n + 1 ==> name[i - 1] == rest[i - n - 2];
        }
      }
    } else {
      assert Label(labels[0]);
    }
  }

  /** The loop accepts exactly the host names of the grammar. */
  method HostNameOK(name: string) returns (ok: bool)
    ensures ok <==> HostName(name)
  {
    if |name| < 2 || |name| > 64 {
      return false;
    }
    var allDigits := true;
    for i := 0 to |name|
      invariant forall k :: 0 <= k < i ==> CharOk(name, k)
      invariant allDigits <==> forall k :: 0 <= k < i ==> Digit(name[k])
    {
      var ch := name[i];
      if Digit(ch) {
      } else if Letter(ch) {
        allDigits := false;
      } else if Joint(ch) {
        allDigits := false;
        if i == 0 || i == |name| - 1 || Joint(name[i - 1]) {
          NotLabelled(name, i);
          return false;
        }
      } else {
        NotLabelled(name, i);
        return false;
      }
    }
    ghost var labels, joints := CharsGiveLabels(name);
    ok := !allDigits;
  }

  lemma NotLabelled(name: string, i: nat)
    requires i < |name| && !CharOk(name, i)
    ensures !HostName(name)
  {
    if labels, joints :| Labelled(name, labels, joints) {
      LabelsGiveChars(name, labels, joints);
    }
  }
}
