/** The department directory of app/departments/page.tsx: one card per
    department (never `all`), each listing the announcements addressed to
    exactly that department. */
module Departments {
  import opened Seqs
  import opened Types

  const Departments: seq<Department> := [
    Department.Engineering, Department.Marketing, Department.Sales,
    Department.Hr, Department.Finance, Department.Operations]

  /** `mockAnnouncements.filter(a => a.department === dept)` */
  function DepartmentAnnouncements(anns: seq<Announcement>, d: Department): seq<Announcement>
  {
    Filter(anns, (a: Announcement) => a.department == d)
  }

  function Badge(anns: seq<Announcement>, d: Department): nat
  {
    |DepartmentAnnouncements(anns, d)|
  }

  /** A card lists exactly its department's announcements, in order; company-wide ones are on no card. */
  lemma DepartmentAnnouncementsSpec(anns: seq<Announcement>, d: Department)
    ensures forall a :: a in DepartmentAnnouncements(anns, d) <==> a in anns && a.department == d
    ensures IsSubsequence(DepartmentAnnouncements(anns, d), anns)
    ensures Badge(anns, d) == Count(anns, (a: Announcement) => a.department == d)
  {
    forall a ensures a in DepartmentAnnouncements(anns, d) <==> a in anns && a.department == d {
      FilterMembership(anns, (a: Announcement) => a.department == d, a);
    }
    FilterIsSubsequence(anns, (a: Announcement) => a.department == d);
    FilterCount(anns, (a: Announcement) => a.department == d);
  }

  /** The directory is every department but `all`, once each. */
  lemma DirectoryExcludesAll(d: Department)
    ensures d in Departments <==> d != Department.All
    ensures forall i, j :: 0 <= i < j < |Departments| ==> Departments[i] != Departments[j]
  {
  }

  function SumBadges(anns: seq<Announcement>, ds: seq<Department>): nat
  {
    if ds == [] then 0 else Badge(anns, ds[0]) + SumBadges(anns, ds[1..])
  }

  /** The six badges add up to the number of announcements not addressed to `all`. */
  lemma {:induction false} BadgesSum(anns: seq<Announcement>)
    ensures SumBadges(anns, Departments) == |Filter(anns, (a: Announcement) => a.department != Department.All)|
  {
    SixBadges(anns);
    SumBadgesUnfold(anns);
  }

  lemma {:induction false} SixBadges(anns: seq<Announcement>)
    ensures Badge(anns, Department.Engineering) + Badge(anns, Department.Marketing) + Badge(anns, Department.Sales)
      + Badge(anns, Department.Hr) + Badge(anns, Department.Finance) + Badge(anns, Department.Operations)
      == |Filter(anns, (a: Announcement) => a.department != Department.All)|
  {
    if anns != [] {
      SixBadges(anns[1..]);
    }
  }

  lemma SumBadgesUnfold(anns: seq<Announcement>)
    ensures SumBadges(anns, Departments) == Badge(anns, Department.Engineering) + Badge(anns, Department.Marketing)
      + Badge(anns, Department.Sales) + Badge(anns, Department.Hr) + Badge(anns, Department.Finance)
      + Badge(anns, Department.Operations)
  {
    var ds := Departments;
    assert SumBadges(anns, ds[5..]) == Badge(anns, Department.Operations) by {
      assert ds[5..][1..] == [];
    }
    assert ds[4..][1..] == ds[5..];
    assert SumBadges(anns, ds[4..]) == Badge(anns, ds[4]) + SumBadges(anns, ds[5..]);
    assert ds[3..][1..] == ds[4..];
    assert SumBadges(anns, ds[3..]) == Badge(anns, ds[3]) + SumBadges(anns, ds[4..]);
    assert ds[2..][1..] == ds[3..];
    assert SumBadges(anns, ds[2..]) == Badge(anns, ds[2]) + SumBadges(anns, ds[3..]);
    assert ds[1..][1..] == ds[2..];
    assert SumBadges(anns, ds[1..]) == Badge(anns, ds[1]) + SumBadges(anns, ds[2..]);
  }
}
