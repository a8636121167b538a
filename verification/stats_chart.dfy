/** The live productivity chart (components/StatsChart.tsx): a window of six
    hourly points that slides by one point per timer tick, the new point
    labelled with the hour after the last one (modulo 24) and given a random
    productivity between 50 and 89. */
module StatsChart {
  import opened Types
  import opened Text

  datatype Point = Point(time: string, productivity: int)

  /** The chart's first window, 9:00 to 14:00. */
  const InitialData: seq<Point> := [
    Point("9:00", 40), Point("10:00", 60), Point("11:00", 75),
    Point("12:00", 50), Point("13:00", 80), Point("14:00", 85)]

  /** `${h}:00`. */
  function HourLabel(h: nat): string {
    NatToString(h) + ":00"
  }

  /** `parseInt(stamp.split(':')[0])`; None is JavaScript's NaN. */
  function HourOf(stamp: string): Option<nat> {
    ParseInt(TakeUntil(stamp, ':'))
  }

  /** A label written for hour `h` reads back as `h`. */
  lemma HourRoundTrip(h: nat)
    ensures HourOf(HourLabel(h)) == Some(h)
  {
    assert HourLabel(h) == NatToString(h) + [':'] + "00";
    TakeUntilSeparator(NatToString(h), ':', "00");
    ParseIntRoundTrip(h, []);
    assert NatToString(h) + [] == NatToString(h);
  }

  /** The label of the point after `last`: the next hour on a 24-hour clock,
      or "NaN:00" when the last label has no leading number. */
  function NextLabel(last: string): (r: string)
    ensures HourOf(last).None? ==> r == "NaN:00"
    ensures r == "NaN:00" || exists h: nat :: h < 24 && r == HourLabel(h)
  {
    match HourOf(last)
    case None => "NaN:00"
    case Some(h) => HourLabel((h + 1) % 24)
  }

  /** After the label of hour `h` comes the label of the next hour, and after
      23:00 comes 0:00. */
  lemma NextLabelAdvances(h: nat)
    ensures NextLabel(HourLabel(h)) == HourLabel((h + 1) % 24)
    ensures h == 23 ==> NextLabel(HourLabel(h)) == "0:00"
  {
    HourRoundTrip(h);
    if h == 23 {
      assert NatToString(0) == "0";
    }
  }

  /** Once the hour is lost, every later label is "NaN:00". */
  lemma NaNLabelIsSticky()
    ensures HourOf("NaN:00") == None
    ensures NextLabel("NaN:00") == "NaN:00"
  {
    assert TakeUntil("NaN:00", ':')[0] == 'N';
  }

  /** `Math.floor(draw * 40) + 50` for a draw of `Math.random()`. */
  function Productivity(draw: real): (p: int)
    requires 0.0 <= draw < 1.0
    ensures 50 <= p <= 89
  {
    (draw * 40.0).Floor + 50
  }

  /** The window after one tick: the oldest point dropped and the new point
      appended. */
  function NextWindow(data: seq<Point>, draw: real): (r: seq<Point>)
    requires |data| > 0 && 0.0 <= draw < 1.0
    ensures |r| == |data| && r[..|data| - 1] == data[1..]
    ensures r[|data| - 1].time == NextLabel(data[|data| - 1].time)
    ensures 50 <= r[|data| - 1].productivity <= 89
  {
    data[1..] + [Point(NextLabel(data[|data| - 1].time), Productivity(draw))]
  }

  /** Point `i` is labelled with hour `hours[i]`, for every `i`. */
  predicate LabelledBy(data: seq<Point>, hours: seq<nat>) {
    |hours| == |data| && forall i :: 0 <= i < |data| ==> data[i].time == HourLabel(hours[i])
  }

  /** Each hour is the one after its predecessor, on a 24-hour clock. */
  predicate Consecutive(hours: seq<nat>) {
    forall i :: 0 <= i < |hours| - 1 ==> hours[i + 1] == (hours[i] + 1) % 24
  }

  /** Each label reads back as its hour. */
  lemma LabelReadsAsHour(data: seq<Point>, hours: seq<nat>, i: nat)
    requires LabelledBy(data, hours) && i < |data|
    ensures HourOf(data[i].time) == Some(hours[i])
  {
    HourRoundTrip(hours[i]);
  }

  /** The first window is labelled 9 to 14 o'clock. */
  lemma InitialDataLabelled()
    ensures LabelledBy(InitialData, [9, 10, 11, 12, 13, 14])
  {
    var hours: seq<nat> := [9, 10, 11, 12, 13, 14];
    forall i | 0 <= i < 6 ensures InitialData[i].time == HourLabel(hours[i]) {
      if i == 0 {
        assert HourLabel(9) == "9:00";
      } else if i == 1 {
        assert HourLabel(10) == "10:00";
      } else if i == 2 {
        assert HourLabel(11) == "11:00";
      } else if i == 3 {
        assert HourLabel(12) == "12:00";
      } else if i == 4 {
        assert HourLabel(13) == "13:00";
      } else {
        assert HourLabel(14) == "14:00";
      }
    }
  }

  /** The first window's hours follow one another. */
  lemma InitialHoursConsecutive()
    ensures Consecutive([9, 10, 11, 12, 13, 14])
  {
    var hours: seq<nat> := [9, 10, 11, 12, 13, 14];
    forall i | 0 <= i < 5 ensures hours[i + 1] == (hours[i] + 1) % 24 {
      assert hours[i] == 9 + i && hours[i + 1] == 10 + i;
    }
  }

  /** The hours after a tick: the oldest dropped, the next one appended. */
  function NextHours(hours: seq<nat>): (r: seq<nat>)
    requires |hours| > 0
    ensures |r| == |hours| && r[..|hours| - 1] == hours[1..]
    ensures r[|hours| - 1] == (hours[|hours| - 1] + 1) % 24
  {
    hours[1..] + [(hours[|hours| - 1] + 1) % 24]
  }

  /** Sliding the hours keeps them consecutive. */
  lemma NextHoursConsecutive(hours: seq<nat>)
    requires |hours| > 0 && Consecutive(hours)
    ensures Consecutive(NextHours(hours))
  {
    var n := |hours|;
    var next := NextHours(hours);
    forall i | 0 <= i < n - 1 ensures next[i] == hours[i + 1] {
      assert next[..n - 1][i] == hours[1..][i];
    }
  }

  /** Dropping the first point and appending one labelled with hour `h`
      keeps the window labelled by the correspondingly slid hours. */
  lemma SlideLabelled(data: seq<Point>, hours: seq<nat>, p: Point, h: nat)
    requires |data| > 0 && LabelledBy(data, hours) && p.time == HourLabel(h)
    ensures LabelledBy(data[1..] + [p], hours[1..] + [h])
  {
    var r := data[1..] + [p];
    var next := hours[1..] + [h];
    forall i | 0 <= i < |r| ensures r[i].time == HourLabel(next[i]) {
      if i < |data| - 1 {
        assert r[i] == data[i + 1] && next[i] == hours[i + 1];
      }
    }
  }

  /** A tick keeps every label equal to the label of its hour. */
  lemma TickKeepsLabels(data: seq<Point>, hours: seq<nat>, draw: real)
    requires |data| > 0 && 0.0 <= draw < 1.0
    requires LabelledBy(data, hours)
    ensures LabelledBy(NextWindow(data, draw), NextHours(hours))
  {
    var n := |data|;
    var h := hours[n - 1];
    assert data[n - 1].time == HourLabel(h);
    NextLabelAdvances(h);
    var p := Point(NextLabel(data[n - 1].time), Productivity(draw));
    assert p.time == HourLabel((h + 1) % 24);
    SlideLabelled(data, hours, p, (h + 1) % 24);
    assert NextWindow(data, draw) == data[1..] + [p];
  }

  class ProductivityChart {
    var data: seq<Point>
    /** The hour each label stands for. */
    ghost var hours: seq<nat>

    /** Six points, labelled with consecutive hours. */
    ghost predicate Valid()
      reads this
    {
      |data| == 6 && LabelledBy(data, hours) && Consecutive(hours)
    }

    constructor ()
      ensures data == InitialData && hours == [9, 10, 11, 12, 13, 14] && Valid()
    {
      data := InitialData;
      hours := [9, 10, 11, 12, 13, 14];
      InitialDataLabelled();
      InitialHoursConsecutive();
    }

    /** One run of the five-second interval, with the draw of `Math.random()`:
        the window slides by one point and stays hourly. */
    method Tick(draw: real)
      requires Valid() && 0.0 <= draw < 1.0
      modifies this
      ensures data == NextWindow(old(data), draw) && hours == NextHours(old(hours)) && Valid()
    {
      TickKeepsLabels(data, hours, draw);
      NextHoursConsecutive(hours);
      data := data[1..] + [Point(NextLabel(data[|data| - 1].time), Productivity(draw))];
      hours := NextHours(hours);
    }
  }
}
