/**
 * `generateMarkdown` (app/components/ContextUpdateCard.tsx): the CLAUDE.md
 * block built from a synthesis' context update, three headed sections with
 * the two lists as `- ` lines.
 */
module ContextMarkdown {
  import opened Types
  import opened Text

  const StatusHeading: string := "## Current Status\n"
  const ChangesHeading: string := "\n\n## Recent Changes\n"
  const PlannedHeading: string := "\n\n## Planned Next\n"
  const Dash: string := "- "

  /** Each item as a `- ` line, in order. */
  function Bullets(items: seq<string>): (r: seq<string>)
    ensures |r| == |items|
    ensures forall k :: 0 <= k < |items| ==> r[k] == Dash + items[k]
  {
    seq(|items|, k requires 0 <= k < |items| => Dash + items[k])
  }

  /** `items.map(i => `- ${i}`).join('\n')`. */
  function BulletList(items: seq<string>): string {
    Join(Bullets(items), '\n')
  }

  /** Each line with its `- ` removed (the inverse of `Bullets` on its image). */
  function Unbullet(lines: seq<string>): (r: seq<string>)
    ensures |r| == |lines|
    ensures forall k :: 0 <= k < |lines| ==>
      r[k] == if |lines[k]| >= |Dash| && lines[k][..|Dash|] == Dash then lines[k][|Dash|..] else lines[k]
  {
    seq(|lines|, k requires 0 <= k < |lines| =>
      if |lines[k]| >= |Dash| && lines[k][..|Dash|] == Dash then lines[k][|Dash|..] else lines[k])
  }

  /** An empty list gives an empty section body. */
  lemma EmptyBulletList()
    ensures BulletList([]) == ""
  {
  }

  /**
   * The lines of a section body are the items, one per line and in order,
   * provided no item spans several lines.
   */
  lemma {:induction false} BulletListRoundTrip(items: seq<string>)
    requires |items| > 0
    requires forall k :: 0 <= k < |items| ==> '\n' !in items[k]
    ensures Unbullet(Split(BulletList(items), '\n')) == items
  {
    var lines := Bullets(items);
    forall k | 0 <= k < |lines| ensures '\n' !in lines[k] {
      assert lines[k] == Dash + items[k];
    }
    SplitJoin(lines, '\n');
    var back := Unbullet(lines);
    forall k | 0 <= k < |items| ensures back[k] == items[k] {
      assert lines[k][..|Dash|] == Dash;
      assert lines[k][|Dash|..] == items[k];
    }
  }

  /** Where the Recent Changes heading starts. */
  function ChangesAt(u: ClaudeMdUpdate): nat {
    |StatusHeading| + |u.currentStatus|
  }

  /** Where the Planned Next heading starts. */
  function PlannedAt(u: ClaudeMdUpdate): nat {
    ChangesAt(u) + |ChangesHeading| + |BulletList(u.recentChanges)|
  }

  /**
   * The block opens with the Current Status heading and the status, then
   * the Recent Changes heading and its list, then the Planned Next heading
   * and its list, which ends the block.
   */
  function GenerateMarkdown(u: ClaudeMdUpdate): (md: string)
    ensures IsAt(md, 0, StatusHeading) && IsAt(md, |StatusHeading|, u.currentStatus)
    ensures IsAt(md, ChangesAt(u), ChangesHeading)
    ensures IsAt(md, ChangesAt(u) + |ChangesHeading|, BulletList(u.recentChanges))
    ensures IsAt(md, PlannedAt(u), PlannedHeading)
    ensures IsAt(md, PlannedAt(u) + |PlannedHeading|, BulletList(u.plannedNext))
    ensures |md| == PlannedAt(u) + |PlannedHeading| + |BulletList(u.plannedNext)|
  {
    var changes, planned := BulletList(u.recentChanges), BulletList(u.plannedNext);
    var md := StatusHeading + u.currentStatus + ChangesHeading + changes + PlannedHeading + planned;
    var m1 := StatusHeading + u.currentStatus;
    var m2 := m1 + ChangesHeading;
    var m3 := m2 + changes;
    var m4 := m3 + PlannedHeading;
    assert IsAt(StatusHeading, 0, StatusHeading);
    IsAtKept(StatusHeading, u.currentStatus); IsAtEnd(StatusHeading, u.currentStatus);
    IsAtKept(m1, ChangesHeading); IsAtEnd(m1, ChangesHeading);
    IsAtKept(m2, changes); IsAtEnd(m2, changes);
    IsAtKept(m3, PlannedHeading); IsAtEnd(m3, PlannedHeading);
    IsAtKept(m4, planned); IsAtEnd(m4, planned);
    md
  }

  /** The three headings appear in the order Current Status, Recent Changes, Planned Next. */
  lemma SectionOrder(u: ClaudeMdUpdate)
    ensures 0 < ChangesAt(u) < PlannedAt(u)
    ensures GenerateMarkdown(u)[..|StatusHeading|] == StatusHeading
    ensures GenerateMarkdown(u)[ChangesAt(u)..ChangesAt(u) + |ChangesHeading|] == ChangesHeading
    ensures GenerateMarkdown(u)[PlannedAt(u)..PlannedAt(u) + |PlannedHeading|] == PlannedHeading
  {
    var md := GenerateMarkdown(u);
    assert IsAt(md, 0, StatusHeading);
  }
}
