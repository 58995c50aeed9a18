/** getHeadings, shared by the travel-plan and booking list views: one pass
    over the listed records that files each record under the heading of its
    customer, `customer.id + "  " + customer.name`. */
module Headings {
  import opened Common
  import TravelPlans
  import Bookings

  /** The records with heading `k`, in input order. */
  function Filter<T>(rows: seq<T>, key: T -> string, k: string): (r: seq<T>)
    ensures |r| <= |rows|
    ensures forall j :: 0 <= j < |r| ==> key(r[j]) == k
  {
    if rows == [] then []
    else
      var init, last := rows[..|rows| - 1], rows[|rows| - 1];
      if key(last) == k then Filter(init, key, k) + [last] else Filter(init, key, k)
  }

  /** The headings object after the records have been filed one by one:
      a record whose heading is new starts a list of its own, any other is
      pushed onto its heading's list. */
  function Group<T>(rows: seq<T>, key: T -> string): map<string, seq<T>> {
    if rows == [] then map[]
    else
      var init, last := rows[..|rows| - 1], rows[|rows| - 1];
      var g := Group(init, key);
      if key(last) in g then g[key(last) := g[key(last)] + [last]] else g[key(last) := [last]]
  }

  /** The headings of the records. */
  function Keys<T>(rows: seq<T>, key: T -> string): set<string> {
    set i | 0 <= i < |rows| :: key(rows[i])
  }

  lemma KeysSnoc<T>(rows: seq<T>, key: T -> string, x: T)
    ensures Keys(rows + [x], key) == Keys(rows, key) + {key(x)}
  {
    var ws := rows + [x];
    forall k | k in Keys(ws, key) ensures k in Keys(rows, key) + {key(x)} {
      var i :| 0 <= i < |ws| && key(ws[i]) == k;
      if i < |rows| { assert ws[i] == rows[i]; }
    }
    forall k | k in Keys(rows, key) ensures k in Keys(ws, key) {
      var i :| 0 <= i < |rows| && key(rows[i]) == k;
      assert ws[i] == rows[i];
    }
    assert ws[|rows|] == x;
  }

  /** There is a heading for each customer that occurs and for no other,
      and each heading lists exactly that customer's records, in input
      order. So every record lands in its own heading's list and in no
      other. */
  lemma {:induction false} GroupIsFilter<T>(rows: seq<T>, key: T -> string)
    ensures Group(rows, key).Keys == Keys(rows, key)
    ensures forall k :: k in Group(rows, key) ==> Group(rows, key)[k] == Filter(rows, key, k)
  {
    if rows != [] {
      var init, last := rows[..|rows| - 1], rows[|rows| - 1];
      assert rows == init + [last];
      GroupIsFilter(init, key);
      KeysSnoc(init, key, last);
      forall k | k in Group(rows, key) ensures Group(rows, key)[k] == Filter(rows, key, k) {
        if k == key(last) && k !in Group(init, key) {
          if Filter(init, key, k) != [] {
            var r := Filter(init, key, k);
            assert key(r[0]) == k;
            FilterMember(init, key, k, 0);
          }
        }
      }
    }
  }

  /** An element of a heading list comes from the input. */
  lemma {:induction false} FilterMember<T>(rows: seq<T>, key: T -> string, k: string, j: int)
    requires 0 <= j < |Filter(rows, key, k)|
    ensures k in Keys(rows, key)
  {
    var init, last := rows[..|rows| - 1], rows[|rows| - 1];
    assert rows == init + [last];
    KeysSnoc(init, key, last);
    if key(last) != k || j < |Filter(init, key, k)| {
      FilterMember(init, key, k, j);
    }
  }

  /** A record whose heading has not occurred before starts a list holding
      only itself. */
  lemma {:induction false} FirstOccurrenceStartsList<T>(rows: seq<T>, key: T -> string, i: int)
    requires 0 <= i < |rows|
    requires key(rows[i]) !in Keys(rows[..i], key)
    ensures Group(rows[..i + 1], key)[key(rows[i])] == [rows[i]]
  {
    var prefix := rows[..i + 1];
    assert prefix[..i] == rows[..i] && prefix[i] == rows[i];
    GroupIsFilter(rows[..i], key);
    assert key(rows[i]) !in Group(rows[..i], key);
  }

  /** The headings in the order they first occur. */
  function Order<T>(rows: seq<T>, key: T -> string): seq<string> {
    if rows == [] then []
    else
      var init, last := rows[..|rows| - 1], rows[|rows| - 1];
      if key(last) in Order(init, key) then Order(init, key) else Order(init, key) + [key(last)]
  }

  /** The total length of the lists under the given headings. */
  function SumSizes<T>(g: map<string, seq<T>>, ks: seq<string>): nat {
    if ks == [] then 0
    else (if ks[0] in g then |g[ks[0]]| else 0) + SumSizes(g, ks[1..])
  }

  predicate Distinct(ks: seq<string>) {
    forall i, j :: 0 <= i < j < |ks| ==> ks[i] != ks[j]
  }

  lemma {:induction false} SumSizesAppend<T>(g: map<string, seq<T>>, ks: seq<string>, k: string)
    ensures SumSizes(g, ks + [k]) == SumSizes(g, ks) + (if k in g then |g[k]| else 0)
  {
    if ks != [] {
      assert (ks + [k])[1..] == ks[1..] + [k];
      SumSizesAppend(g, ks[1..], k);
    }
  }

  /** Changing the list under one heading changes the total by the
      difference, when that heading occurs once. */
  lemma {:induction false} SumSizesUpdate<T>(g: map<string, seq<T>>, ks: seq<string>, k: string, v: seq<T>)
    requires Distinct(ks)
    ensures k !in ks ==> SumSizes(g[k := v], ks) == SumSizes(g, ks)
    ensures k in ks ==> SumSizes(g[k := v], ks) + (if k in g then |g[k]| else 0) == SumSizes(g, ks) + |v|
  {
    if ks != [] {
      assert Distinct(ks[1..]) by {
        forall i, j | 0 <= i < j < |ks[1..]| ensures ks[1..][i] != ks[1..][j] {
          assert ks[1..][i] == ks[i + 1] && ks[1..][j] == ks[j + 1];
        }
      }
      SumSizesUpdate(g, ks[1..], k, v);
      if ks[0] == k {
        assert k !in ks[1..] by {
          forall j | 0 <= j < |ks[1..]| ensures ks[1..][j] != k {
            assert ks[1..][j] == ks[j + 1];
          }
        }
      } else {
        assert k in ks ==> k in ks[1..];
      }
    }
  }

  /** The first-occurrence order lists each heading once, and the list
      lengths add up to the number of records. */
  lemma {:induction false} GroupSizesSum<T>(rows: seq<T>, key: T -> string)
    ensures Distinct(Order(rows, key))
    ensures forall k :: k in Order(rows, key) <==> k in Group(rows, key)
    ensures SumSizes(Group(rows, key), Order(rows, key)) == |rows|
  {
    if rows != [] {
      var init, last := rows[..|rows| - 1], rows[|rows| - 1];
      GroupSizesSum(init, key);
      var g, ks, k := Group(init, key), Order(init, key), key(last);
      if k in g {
        SumSizesUpdate(g, ks, k, g[k] + [last]);
      } else {
        SumSizesUpdate(g, ks, k, [last]);
        SumSizesAppend(g[k := [last]], ks, k);
      }
    }
  }

  /** getHeadings: the loop over the records, filing each under its
      heading. */
  method GetHeadings<T>(rows: seq<T>, key: T -> string) returns (headings: map<string, seq<T>>)
    ensures headings == Group(rows, key)
    ensures rows == [] ==> headings == map[]
  {
    headings := map[];
    for i := 0 to |rows|
      invariant headings == Group(rows[..i], key)
    {
      assert rows[..i + 1][..i] == rows[..i];
      var heading := key(rows[i]);
      if heading in headings {
        headings := headings[heading := headings[heading] + [rows[i]]];
      } else {
        headings := headings[heading := [rows[i]]];
      }
    }
    assert rows[..|rows|] == rows;
  }

  /** The decimal digits of a natural number. */
  function NatToString(n: nat): (s: string)
    ensures |s| >= 1
    ensures forall i :: 0 <= i < |s| ==> '0' <= s[i] <= '9'
  {
    var d := ['0' + (n % 10) as char];
    if n < 10 then d else NatToString(n / 10) + d
  }

  /** How JavaScript writes a number, or a null, into a string. */
  function IdToString(id: Option<int>): string {
    match id
    case None => "null"
    case Some(n) => if n < 0 then "-" + NatToString(-n) else NatToString(n)
  }

  /** The customer as the list views receive it; `name` may be absent,
      which JavaScript writes as "undefined". */
  datatype ListedCustomer = ListedCustomer(id: Option<int>, name: Option<string>)

  /** `customer.id + "  " + customer.name`. */
  function HeadingKey(c: ListedCustomer): string {
    IdToString(c.id) + "  " + (if c.name.Some? then c.name.value else "undefined")
  }

  /** Distinct non-negative ids are written differently, so customers with
      different ids never share a heading when their names agree. */
  lemma {:induction false} NatToStringInjective(m: nat, n: nat)
    requires NatToString(m) == NatToString(n)
    ensures m == n
  {
    var sm, sn := NatToString(m), NatToString(n);
    assert sm[|sm| - 1] == '0' + (m % 10) as char;
    assert sn[|sn| - 1] == '0' + (n % 10) as char;
    if m >= 10 && n >= 10 {
      assert NatToString(m / 10) == sm[..|sm| - 1];
      assert NatToString(n / 10) == sn[..|sn| - 1];
      NatToStringInjective(m / 10, n / 10);
    }
  }

  /** Two customers with the same name but different non-negative ids get
      different headings. */
  lemma DistinctIdsDistinctHeadings(a: ListedCustomer, b: ListedCustomer)
    requires a.name == b.name
    requires a.id.Some? && b.id.Some? && 0 <= a.id.value && 0 <= b.id.value && a.id != b.id
    ensures HeadingKey(a) != HeadingKey(b)
  {
    var sa, sb := IdToString(a.id), IdToString(b.id);
    var tail := "  " + (if a.name.Some? then a.name.value else "undefined");
    assert HeadingKey(a) == sa + tail && HeadingKey(b) == sb + tail;
    if HeadingKey(a) == HeadingKey(b) {
      assert |sa| == |sb|;
      assert sa == (sa + tail)[..|sa|] && sb == (sb + tail)[..|sb|];
      NatToStringInjective(a.id.value, b.id.value);
    }
  }

  /** A travel plan as listed, with its customer. */
  datatype ListedTravelPlan = ListedTravelPlan(customer: ListedCustomer, plan: TravelPlans.TravelPlan)

  /** A booking as listed, with its customer. */
  datatype ListedBooking = ListedBooking(customer: ListedCustomer, booking: Bookings.Booking)

  function TravelPlanHeading(p: ListedTravelPlan): string { HeadingKey(p.customer) }

  function BookingHeading(b: ListedBooking): string { HeadingKey(b.customer) }

  /** getHeadings in the travel-plan list view. */
  method TravelPlanHeadings(plans: seq<ListedTravelPlan>) returns (headings: map<string, seq<ListedTravelPlan>>)
    ensures headings == Group(plans, TravelPlanHeading)
  {
    headings := GetHeadings(plans, TravelPlanHeading);
  }

  /** getHeadings in the booking list view. */
  method BookingHeadings(bookings: seq<ListedBooking>) returns (headings: map<string, seq<ListedBooking>>)
    ensures headings == Group(bookings, BookingHeading)
  {
    headings := GetHeadings(bookings, BookingHeading);
  }
}
