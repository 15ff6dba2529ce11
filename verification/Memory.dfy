/** The C library routines that src/linenoise.c calls on its buffers. */
module Memory {
  /** A C string value: the characters before its terminator. */
  type CString = s: string | '\0' !in s witness ""

  /** The string a buffer denotes: everything before the first terminator. */
  function Terminated(s: seq<char>): (r: CString)
    ensures r <= s
    ensures |r| < |s| ==> s[|r|] == '\0'
  {
    if s == [] || s[0] == '\0' then [] else [s[0]] + Terminated(s[1..])
  }

  /** Only the part before the first terminator matters. */
  lemma {:induction false} TerminatedAt(s: seq<char>, n: nat)
    requires n < |s| && s[n] == '\0'
    ensures Terminated(s) == Terminated(s[..n])
    ensures '\0' !in s[..n] ==> Terminated(s) == s[..n]
  {
  }

  /** Overlapping copy of `n` elements: the copied range gets the old source, the rest is unchanged. */
  method Memmove<T>(a: array<T>, dst: nat, src: nat, n: nat)
    requires dst + n <= a.Length && src + n <= a.Length
    modifies a
    ensures forall i :: dst <= i < dst + n ==> a[i] == old(a[src + i - dst])
    ensures forall i :: 0 <= i < dst || dst + n <= i < a.Length ==> a[i] == old(a[i])
  {
    if dst <= src {
      for k := 0 to n
        invariant forall i :: dst <= i < dst + k ==> a[i] == old(a[src + i - dst])
        invariant forall i :: 0 <= i < dst || dst + k <= i < a.Length ==> a[i] == old(a[i])
      {
        a[dst + k] := a[src + k];
      }
    } else {
      for k := n downto 0
        invariant forall i :: dst + k <= i < dst + n ==> a[i] == old(a[src + i - dst])
        invariant forall i :: 0 <= i < dst + k || dst + n <= i < a.Length ==> a[i] == old(a[i])
      {
        a[dst + k] := a[src + k];
      }
    }
  }

  /** Copies at most `n` characters and fills the rest of the `n` with terminators. */
  method Strncpy(a: array<char>, s: CString, n: nat)
    requires n <= a.Length
    modifies a
    ensures forall i :: 0 <= i < a.Length ==>
              a[i] == if i >= n then old(a[i]) else if i < |s| then s[i] else '\0'
  {
    for k := 0 to n
      invariant forall i :: 0 <= i < a.Length ==>
                  a[i] == if i >= k then old(a[i]) else if i < |s| then s[i] else '\0'
    {
      a[k] := if k < |s| then s[k] else '\0';
    }
  }

  method Strlen(a: array<char>) returns (n: nat)
    requires '\0' in a[..]
    ensures n < a.Length && a[n] == '\0' && forall i :: 0 <= i < n ==> a[i] != '\0'
  {
    n := 0;
    while a[n] != '\0'
      invariant n < a.Length && forall i :: 0 <= i < n ==> a[i] != '\0'
      decreases a.Length - n
    {
      n := n + 1;
    }
  }
}
