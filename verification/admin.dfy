/**
  The admin dashboard's client-side rules: a user's initials, the first
  three pending applications on the overview, and the badge variants of
  the user list.
 */
module Admin {
  import opened Seqs
  import opened Text

  datatype PendingProvider = PendingProvider(
    id: int, name: string, service: string, email: string, phone: string,
    experience: string, status: string)

  datatype User = User(
    id: int, name: string, email: string, kind: string, status: string,
    joinDate: string, totalBookings: int)

  datatype BadgeVariant = Default | Secondary | Destructive

  /** `n => n[0]` joined with '': the first character of each segment; an
      empty segment gives `undefined`, which `join` renders as nothing. */
  function Heads(segments: seq<string>): (r: string)
    ensures |r| <= |segments|
  {
    if segments == [] then []
    else (if segments[0] == [] then [] else [segments[0][0]]) + Heads(segments[1..])
  }

  /** `name.split(' ').map(n => n[0]).join('')`: characters of the name,
      never a space, and never more than the name has. */
  function Initials(name: string): (r: string)
    ensures |r| <= |name|
    ensures forall i :: 0 <= i < |r| ==> r[i] in name && r[i] != ' '
  {
    HeadsOfSplit(name);
    Heads(Split(name, ' '))
  }

  predicate IsNonEmpty(segment: string) {
    segment != []
  }

  /** The characters of `s` that begin a word: not a space, and either first
      or right after a space. `atStart` says whether the character before `s`
      was a space (or there was none). */
  function WordStarts(s: string, atStart: bool): (r: string)
    ensures |r| <= |s|
    ensures forall i :: 0 <= i < |r| ==> r[i] in s && r[i] != ' '
  {
    if s == [] then []
    else if s[0] == ' ' then WordStarts(s[1..], true)
    else (if atStart then [s[0]] else []) + WordStarts(s[1..], false)
  }

  /** Empty segments contribute nothing: the initials are the first
      characters of the non-empty segments, one each, in order. */
  lemma {:induction false} HeadsOfSegments(segments: seq<string>)
    ensures var ne := Filter(segments, IsNonEmpty);
      |Heads(segments)| == |ne| &&
      forall k :: 0 <= k < |ne| ==> Heads(segments)[k] == ne[k][0]
  {
    if segments != [] {
      HeadsOfSegments(segments[1..]);
    }
  }

  /** The initials of a name are the characters that begin its words, so
      leading, trailing and doubled spaces add nothing. */
  lemma InitialsAreWordStarts(name: string)
    ensures Initials(name) == WordStarts(name, true)
  {
    HeadsOfSplit(name);
  }

  lemma {:induction false} HeadsOfSplit(s: string)
    ensures Heads(Split(s, ' ')) == WordStarts(s, true)
    ensures Heads(Split(s, ' ')[1..]) == WordStarts(s, false)
  {
    if s != [] {
      HeadsOfSplit(s[1..]);
      var rest := Split(s[1..], ' ');
      var r := Split(s, ' ');
      if s[0] == ' ' {
        assert r == [[]] + rest && r[1..] == rest;
      } else {
        assert r == [[s[0]] + rest[0]] + rest[1..];
        assert r[1..] == rest[1..];
      }
    }
  }

  /** A name without a space gives exactly its first character. */
  lemma InitialsWithoutSpace(name: string)
    requires name != [] && ' ' !in name
    ensures Initials(name) == [name[0]]
  {
    SplitWithoutSeparator(name, ' ');
    assert Heads([name]) == [name[0]] + Heads([]);
  }

  /** The overview's "Pending Applications": at most the first three, in
      order. */
  function OverviewPending(pending: seq<PendingProvider>): (r: seq<PendingProvider>)
    ensures |r| <= 3 && r <= pending
  {
    Take(pending, 3)
  }

  lemma OverviewPendingSpec(pending: seq<PendingProvider>)
    ensures var r := OverviewPending(pending);
      |r| <= 3 && r == pending[..|r|] && (|pending| >= 3 ==> |r| == 3)
  {
  }

  /** The user-type badge is the default one exactly for providers. */
  function TypeBadge(u: User): (v: BadgeVariant)
    ensures v == Default <==> u.kind == "Provider"
    ensures v in {Default, Secondary}
  {
    if u.kind == "Provider" then Default else Secondary
  }

  /** The status badge is the default one exactly for active users, and the
      destructive one otherwise. */
  function StatusBadge(u: User): (v: BadgeVariant)
    ensures v == Default <==> u.status == "Active"
    ensures v in {Default, Destructive}
  {
    if u.status == "Active" then Default else Destructive
  }
}
