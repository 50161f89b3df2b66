/**
 * The static data of the drum pad (src/components/DrumPad.tsx): the pad table
 * with key triggers and colours, the per-pad repeat rates, the demo beat and
 * the progress formula, with the facts the scheduler relies on.
 */
module DrumData {
  import opened Wrappers
  import opened Text

  type PadId = string

  /** One entry of the `drumPads` table. */
  datatype PadInfo = PadInfo(id: PadId, keyTrigger: string, color: string)

  /** `drumPads` (src/components/DrumPad.tsx:91-104). */
  const DrumPads: seq<PadInfo> := [
    PadInfo("Kick", "1", "#FF5252"),
    PadInfo("Snare", "2", "#FF9800"),
    PadInfo("Clap", "3", "#FFEB3B"),
    PadInfo("HiHat", "4", "#8BC34A"),
    PadInfo("Vocal", "Q", "#E91E63"),
    PadInfo("Pluck", "W", "#3F51B5"),
    PadInfo("Wobble", "E", "#9C27B0"),
    PadInfo("Glitch", "R", "#F44336"),
    PadInfo("Chord", "A", "#4CAF50"),
    PadInfo("Arp", "S", "#03A9F4"),
    PadInfo("Pad", "D", "#795548"),
    PadInfo("Vox", "F", "#607D8B")
  ]

  /** The ids of the pads, written out. */
  const PadNames: set<PadId> := {"Kick", "Snare", "Clap", "HiHat", "Vocal", "Pluck",
                                 "Wobble", "Glitch", "Chord", "Arp", "Pad", "Vox"}

  /** `PadNames` is exactly the set of ids in the `drumPads` table. */
  lemma PadNamesAreTableIds()
    ensures PadNames == set p | p in DrumPads :: p.id
  {
  }

  /** No two pads share an id. */
  lemma PadIdsDistinct()
    ensures forall i, j | 0 <= i < j < |DrumPads| :: DrumPads[i].id != DrumPads[j].id
  {
  }

  // ----- Repeat rates -----

  /** `repeatRates` in milliseconds (src/components/DrumPad.tsx:71-84). */
  const RepeatRates: map<PadId, nat> := map[
    "Kick" := 200, "Snare" := 150, "Clap" := 180, "HiHat" := 100,
    "Vocal" := 250, "Pluck" := 150, "Wobble" := 300, "Glitch" := 120,
    "Chord" := 350, "Arp" := 200, "Pad" := 500, "Vox" := 250
  ]

  const DefaultRate: nat := 200

  /** `repeatRates.current[padId] || 200`: a missing (or zero) rate falls back to 200 ms. */
  function RateOf(pad: PadId): (r: nat)
    ensures r > 0
    ensures pad in RepeatRates ==> r == RepeatRates[pad]
    ensures pad !in RepeatRates ==> r == DefaultRate
  {
    if pad in RepeatRates && RepeatRates[pad] != 0 then RepeatRates[pad] else DefaultRate
  }

  /** Every pad has its own repeat rate, and the rate table names no other pad. */
  lemma RatesCoverPads()
    ensures RepeatRates.Keys == PadNames
    ensures forall i | 0 <= i < |DrumPads| :: DrumPads[i].id in RepeatRates
  {
  }

  // ----- Colours -----

  /** `getColor` of a pad button (src/components/DrumPad.tsx:21-37): only an id outside
      the pad table gets the grey default. */
  function GetColor(id: PadId): (c: string)
    ensures c == "#CCCCCC" <==> id !in PadNames
  {
    if id == "Kick" then "#FF5252"
    else if id == "Snare" then "#FF9800"
    else if id == "Clap" then "#FFEB3B"
    else if id == "HiHat" then "#8BC34A"
    else if id == "Vocal" then "#E91E63"
    else if id == "Pluck" then "#3F51B5"
    else if id == "Wobble" then "#9C27B0"
    else if id == "Glitch" then "#F44336"
    else if id == "Chord" then "#4CAF50"
    else if id == "Arp" then "#03A9F4"
    else if id == "Pad" then "#795548"
    else if id == "Vox" then "#607D8B"
    else "#CCCCCC"
  }

  /** The colour stored in the table is the one the button computes. */
  lemma PadColorsAgree()
    ensures forall i | 0 <= i < |DrumPads| :: DrumPads[i].color == GetColor(DrumPads[i].id)
  {
  }

  // ----- Keyboard lookup -----

  /** `p.keyTrigger.toLowerCase() === e.key.toLowerCase()`. */
  predicate KeyMatches(p: PadInfo, key: string) {
    Lower(p.keyTrigger) == Lower(key)
  }

  /** `pads.find(...)` as an index: the first pad whose trigger matches `key`. */
  function FindPadIndex(pads: seq<PadInfo>, key: string): (r: Option<nat>)
    ensures r.None? ==> forall j | 0 <= j < |pads| :: !KeyMatches(pads[j], key)
    ensures r.Some? ==> r.value < |pads| && KeyMatches(pads[r.value], key)
    ensures r.Some? ==> forall j | 0 <= j < r.value :: !KeyMatches(pads[j], key)
  {
    if pads == [] then None
    else if KeyMatches(pads[0], key) then Some(0)
    else match FindPadIndex(pads[1..], key)
      case None => None
      case Some(i) => Some(i + 1)
  }

  /** The pad a keyboard key drives, if any (src/components/DrumPad.tsx:675, 684): none
      exactly when no trigger matches the key, and otherwise one of the twelve pads. */
  function KeyToPad(key: string): (r: Option<PadId>)
    ensures r.None? <==> forall i | 0 <= i < |DrumPads| :: !KeyMatches(DrumPads[i], key)
    ensures r.Some? ==> r.value in PadNames
  {
    PadNamesAreTableIds();
    match FindPadIndex(DrumPads, key)
    case None => None
    case Some(i) => Some(DrumPads[i].id)
  }

  /** Key triggers are pairwise distinct ignoring case. */
  lemma KeyTriggersDistinct()
    ensures forall i, j | 0 <= i < j < |DrumPads| ::
      Lower(DrumPads[i].keyTrigger) != Lower(DrumPads[j].keyTrigger)
  {
    forall i | 0 <= i < |DrumPads|
      ensures Lower(DrumPads[i].keyTrigger) == [LowerChar(DrumPads[i].keyTrigger[0])]
    {
      LowerSingle(DrumPads[i].keyTrigger[0]);
    }
  }

  /** A key drives exactly the pad whose trigger matches it ignoring case, and no pad
      when none matches; so "the first match" is "the only match". */
  lemma KeyToPadExact(key: string)
    ensures forall i | 0 <= i < |DrumPads| && KeyMatches(DrumPads[i], key) ::
      KeyToPad(key) == Some(DrumPads[i].id)
    ensures (forall i | 0 <= i < |DrumPads| :: !KeyMatches(DrumPads[i], key)) ==> KeyToPad(key) == None
  {
    KeyTriggersDistinct();
  }

  /** The lookup ignores case: "q" and "Q" drive the same pad. */
  lemma KeyToPadIgnoresCase(key: string)
    ensures KeyToPad(Lower(key)) == KeyToPad(key)
    ensures KeyToPad(Upper(key)) == KeyToPad(key)
  {
    assert forall p :: KeyMatches(p, Lower(key)) == KeyMatches(p, key) by {
      LowerIdempotent(key);
    }
    KeyToPadRespectsMatches(Lower(key), key);
    assert forall p :: KeyMatches(p, Upper(key)) == KeyMatches(p, key) by {
      LowerOfUpper(key);
    }
    KeyToPadRespectsMatches(Upper(key), key);
  }

  lemma KeyToPadRespectsMatches(k1: string, k2: string)
    requires forall p :: KeyMatches(p, k1) == KeyMatches(p, k2)
    ensures KeyToPad(k1) == KeyToPad(k2)
  {
    FindPadIndexRespectsMatches(DrumPads, k1, k2);
  }

  /** Two keys that match the same pads are looked up alike. */
  lemma {:induction false} FindPadIndexRespectsMatches(pads: seq<PadInfo>, k1: string, k2: string)
    requires forall p :: KeyMatches(p, k1) == KeyMatches(p, k2)
    ensures FindPadIndex(pads, k1) == FindPadIndex(pads, k2)
  {
    if pads != [] {
      FindPadIndexRespectsMatches(pads[1..], k1, k2);
    }
  }

  // ----- Demo beat -----

  /** One `{ time, pad }` event of the demo sequence. */
  datatype Hit = Hit(time: nat, pad: PadId)

  /** Length of the demo; the end timeout is armed at this delay. */
  const DemoLength: nat := 15000

  /** Delay of the progress reset that follows the end of the demo. */
  const ProgressResetDelay: nat := 1000

  /** Every hit lies in `[lo, hi)` and names a defined pad, and the hits are in time order. */
  ghost predicate InWindow(s: seq<Hit>, lo: nat, hi: nat) {
    WithinTimes(s, lo, hi) && OnDefinedPads(s) && InTimeOrder(s)
  }

  ghost predicate WithinTimes(s: seq<Hit>, lo: nat, hi: nat) {
    forall i | 0 <= i < |s| :: lo <= s[i].time < hi
  }

  ghost predicate OnDefinedPads(s: seq<Hit>) {
    forall i | 0 <= i < |s| :: s[i].pad in PadNames
  }

  ghost predicate InTimeOrder(s: seq<Hit>) {
    forall i | 0 < i < |s| :: s[i - 1].time <= s[i].time
  }

  /** Two windows, one after the other, make one window. */
  lemma ConcatWindows(a: seq<Hit>, b: seq<Hit>, lo: nat, mid: nat, hi: nat)
    requires lo <= mid <= hi
    requires InWindow(a, lo, mid) && InWindow(b, mid, hi)
    ensures InWindow(a + b, lo, hi)
  {
    var s := a + b;
    forall i | 0 <= i < |s| ensures lo <= s[i].time < hi && s[i].pad in PadNames {
      if i < |a| {
        assert s[i] == a[i];
      } else {
        assert s[i] == b[i - |a|];
      }
    }
    forall i | 0 < i < |s| ensures s[i - 1].time <= s[i].time {
      if i < |a| {
        assert s[i - 1] == a[i - 1] && s[i] == a[i];
      } else if i == |a| {
        assert s[i] == b[0];
      } else {
        assert s[i - 1] == b[i - 1 - |a|] && s[i] == b[i - |a|];
      }
    }
  }

  /** The intro of the demo, 0-2 s (src/components/DrumPad.tsx:445-456). */
  const Intro: seq<Hit> := [
    Hit(0, "Kick"), Hit(0, "Wobble"), Hit(200, "HiHat"), Hit(400, "HiHat"),
    Hit(600, "Kick"), Hit(800, "HiHat"), Hit(1000, "Kick"), Hit(1000, "Wobble"),
    Hit(1200, "HiHat"), Hit(1400, "Snare"), Hit(1600, "HiHat"), Hit(1800, "Kick")
  ]

  lemma IntroInWindow()
    ensures InWindow(Intro, 0, 2000)
  {
    IntroTimes();
    IntroOrder();
    IntroPads();
  }

  lemma IntroTimes()
    ensures WithinTimes(Intro, 0, 2000)
  {
  }

  lemma IntroOrder()
    ensures InTimeOrder(Intro)
  {
  }

  lemma IntroPads()
    ensures OnDefinedPads(Intro)
  {
  }

  /** The build-up of the demo, 2-4 s (src/components/DrumPad.tsx:459-481). */
  const BuildUp: seq<Hit> := [
    Hit(2000, "Kick"), Hit(2000, "Wobble"), Hit(2100, "HiHat"), Hit(2200, "HiHat"),
    Hit(2300, "Clap"), Hit(2400, "Kick"), Hit(2500, "HiHat"), Hit(2600, "HiHat"),
    Hit(2700, "Clap"), Hit(2800, "Kick"), Hit(2800, "Wobble"), Hit(2900, "HiHat"),
    Hit(3000, "Glitch"), Hit(3100, "HiHat"), Hit(3200, "Kick"), Hit(3300, "HiHat"),
    Hit(3400, "Clap"), Hit(3500, "HiHat"), Hit(3600, "Kick"), Hit(3600, "Wobble"),
    Hit(3700, "HiHat"), Hit(3800, "Glitch"), Hit(3900, "HiHat")
  ]

  lemma BuildUpInWindow()
    ensures InWindow(BuildUp, 2000, 4000)
  {
    BuildUpTimes();
    BuildUpOrder();
    BuildUpPads();
  }

  lemma BuildUpTimes()
    ensures WithinTimes(BuildUp, 2000, 4000)
  {
  }

  lemma BuildUpOrder()
    ensures InTimeOrder(BuildUp)
  {
  }

  lemma BuildUpPads()
    ensures OnDefinedPads(BuildUp)
  {
  }

  /** The drop of the demo, 4-6 s (src/components/DrumPad.tsx:484-506). */
  const Drop: seq<Hit> := [
    Hit(4000, "Kick"), Hit(4000, "Wobble"), Hit(4100, "HiHat"), Hit(4200, "HiHat"),
    Hit(4300, "Clap"), Hit(4400, "Kick"), Hit(4500, "HiHat"), Hit(4600, "HiHat"),
    Hit(4700, "Clap"), Hit(4800, "Kick"), Hit(4800, "Wobble"), Hit(4900, "HiHat"),
    Hit(5000, "Glitch"), Hit(5100, "HiHat"), Hit(5200, "Kick"), Hit(5300, "HiHat"),
    Hit(5400, "Clap"), Hit(5500, "HiHat"), Hit(5600, "Kick"), Hit(5600, "Wobble"),
    Hit(5700, "HiHat"), Hit(5800, "Glitch"), Hit(5900, "HiHat")
  ]

  lemma DropInWindow()
    ensures InWindow(Drop, 4000, 6000)
  {
    DropTimes();
    DropOrder();
    DropPads();
  }

  lemma DropTimes()
    ensures WithinTimes(Drop, 4000, 6000)
  {
  }

  lemma DropOrder()
    ensures InTimeOrder(Drop)
  {
  }

  lemma DropPads()
    ensures OnDefinedPads(Drop)
  {
  }

  /** The vocal section of the demo, 6-8 s (src/components/DrumPad.tsx:509-532). */
  const VocalSection: seq<Hit> := [
    Hit(6000, "Kick"), Hit(6000, "Wobble"), Hit(6000, "Vocal"), Hit(6100, "HiHat"),
    Hit(6200, "HiHat"), Hit(6300, "Clap"), Hit(6400, "Kick"), Hit(6500, "HiHat"),
    Hit(6600, "HiHat"), Hit(6700, "Clap"), Hit(6800, "Kick"), Hit(6800, "Wobble"),
    Hit(6900, "HiHat"), Hit(7000, "Vox"), Hit(7100, "HiHat"), Hit(7200, "Kick"),
    Hit(7300, "HiHat"), Hit(7400, "Clap"), Hit(7500, "HiHat"), Hit(7600, "Kick"),
    Hit(7600, "Wobble"), Hit(7700, "HiHat"), Hit(7800, "Vox"), Hit(7900, "HiHat")
  ]

  lemma VocalSectionInWindow()
    ensures InWindow(VocalSection, 6000, 8000)
  {
    VocalSectionTimes();
    VocalSectionOrder();
    VocalSectionPads();
  }

  lemma VocalSectionTimes()
    ensures WithinTimes(VocalSection, 6000, 8000)
  {
  }

  lemma VocalSectionOrder()
    ensures InTimeOrder(VocalSection)
  {
  }

  lemma VocalSectionPads()
    ensures OnDefinedPads(VocalSection)
  {
  }

  /** The chord section of the demo, 8-10 s (src/components/DrumPad.tsx:535-558). */
  const ChordSection: seq<Hit> := [
    Hit(8000, "Kick"), Hit(8000, "Wobble"), Hit(8000, "Chord"), Hit(8100, "HiHat"),
    Hit(8200, "HiHat"), Hit(8300, "Clap"), Hit(8400, "Kick"), Hit(8500, "HiHat"),
    Hit(8600, "HiHat"), Hit(8700, "Clap"), Hit(8800, "Kick"), Hit(8800, "Wobble"),
    Hit(8900, "HiHat"), Hit(9000, "Glitch"), Hit(9100, "HiHat"), Hit(9200, "Kick"),
    Hit(9300, "HiHat"), Hit(9400, "Clap"), Hit(9500, "HiHat"), Hit(9600, "Kick"),
    Hit(9600, "Wobble"), Hit(9700, "HiHat"), Hit(9800, "Chord"), Hit(9900, "HiHat")
  ]

  lemma ChordSectionInWindow()
    ensures InWindow(ChordSection, 8000, 10000)
  {
    ChordSectionTimes();
    ChordSectionOrder();
    ChordSectionPads();
  }

  lemma ChordSectionTimes()
    ensures WithinTimes(ChordSection, 8000, 10000)
  {
  }

  lemma ChordSectionOrder()
    ensures InTimeOrder(ChordSection)
  {
  }

  lemma ChordSectionPads()
    ensures OnDefinedPads(ChordSection)
  {
  }

  /** The arp section of the demo, 10-12 s (src/components/DrumPad.tsx:561-584). */
  const ArpSection: seq<Hit> := [
    Hit(10000, "Kick"), Hit(10000, "Wobble"), Hit(10000, "Arp"), Hit(10100, "HiHat"),
    Hit(10200, "HiHat"), Hit(10300, "Clap"), Hit(10400, "Kick"), Hit(10500, "HiHat"),
    Hit(10600, "HiHat"), Hit(10700, "Clap"), Hit(10800, "Kick"), Hit(10800, "Wobble"),
    Hit(10900, "HiHat"), Hit(11000, "Arp"), Hit(11100, "HiHat"), Hit(11200, "Kick"),
    Hit(11300, "HiHat"), Hit(11400, "Clap"), Hit(11500, "HiHat"), Hit(11600, "Kick"),
    Hit(11600, "Wobble"), Hit(11700, "HiHat"), Hit(11800, "Arp"), Hit(11900, "HiHat")
  ]

  lemma ArpSectionInWindow()
    ensures InWindow(ArpSection, 10000, 12000)
  {
    ArpSectionTimes();
    ArpSectionOrder();
    ArpSectionPads();
  }

  lemma ArpSectionTimes()
    ensures WithinTimes(ArpSection, 10000, 12000)
  {
  }

  lemma ArpSectionOrder()
    ensures InTimeOrder(ArpSection)
  {
  }

  lemma ArpSectionPads()
    ensures OnDefinedPads(ArpSection)
  {
  }

  /** The climax of the demo, 12-14 s (src/components/DrumPad.tsx:587-613). */
  const Climax: seq<Hit> := [
    Hit(12000, "Kick"), Hit(12000, "Wobble"), Hit(12000, "Chord"), Hit(12000, "Vox"),
    Hit(12100, "HiHat"), Hit(12200, "HiHat"), Hit(12300, "Clap"), Hit(12400, "Kick"),
    Hit(12400, "Wobble"), Hit(12500, "HiHat"), Hit(12600, "HiHat"), Hit(12700, "Clap"),
    Hit(12800, "Kick"), Hit(12800, "Wobble"), Hit(12900, "HiHat"), Hit(13000, "Glitch"),
    Hit(13100, "HiHat"), Hit(13200, "Kick"), Hit(13200, "Wobble"), Hit(13300, "HiHat"),
    Hit(13400, "Clap"), Hit(13500, "HiHat"), Hit(13600, "Kick"), Hit(13600, "Wobble"),
    Hit(13700, "HiHat"), Hit(13800, "Vox"), Hit(13900, "HiHat")
  ]

  lemma ClimaxInWindow()
    ensures InWindow(Climax, 12000, 14000)
  {
    ClimaxTimes();
    ClimaxOrder();
    ClimaxPads();
  }

  lemma ClimaxTimes()
    ensures WithinTimes(Climax, 12000, 14000)
  {
  }

  lemma ClimaxOrder()
    ensures InTimeOrder(Climax)
  {
  }

  lemma ClimaxPads()
    ensures OnDefinedPads(Climax)
  {
  }

  /** The outro of the demo, 14-15 s (src/components/DrumPad.tsx:616-629). */
  const Outro: seq<Hit> := [
    Hit(14000, "Kick"), Hit(14000, "Wobble"), Hit(14000, "Chord"), Hit(14100, "HiHat"),
    Hit(14200, "Clap"), Hit(14300, "HiHat"), Hit(14400, "Kick"), Hit(14400, "Wobble"),
    Hit(14500, "Pluck"), Hit(14600, "HiHat"), Hit(14700, "Clap"), Hit(14800, "Kick"),
    Hit(14800, "Wobble"), Hit(14900, "Glitch")
  ]

  lemma OutroInWindow()
    ensures InWindow(Outro, 14000, 15000)
  {
    OutroTimes();
    OutroOrder();
    OutroPads();
  }

  lemma OutroTimes()
    ensures WithinTimes(Outro, 14000, 15000)
  {
  }

  lemma OutroOrder()
    ensures InTimeOrder(Outro)
  {
  }

  lemma OutroPads()
    ensures OnDefinedPads(Outro)
  {
  }

  /** The `sequence` of `playDemoSequence` (src/components/DrumPad.tsx:443-630). */
  function Demo(): (r: seq<Hit>)
    ensures |r| == 171
  {
    Intro + BuildUp + Drop + VocalSection + ChordSection + ArpSection + Climax + Outro
  }

  /** The demo has 171 hits, all strictly before its end, all on defined pads, in time order. */
  lemma DemoWellFormed()
    ensures |Demo()| == 171
    ensures InWindow(Demo(), 0, DemoLength)
  {
    IntroInWindow();
    BuildUpInWindow();
    DropInWindow();
    VocalSectionInWindow();
    ChordSectionInWindow();
    ArpSectionInWindow();
    ClimaxInWindow();
    OutroInWindow();
    ConcatWindows(Intro, BuildUp, 0, 2000, 4000);
    ConcatWindows(Intro + BuildUp, Drop, 0, 4000, 6000);
    ConcatWindows(Intro + BuildUp + Drop, VocalSection, 0, 6000, 8000);
    ConcatWindows(Intro + BuildUp + Drop + VocalSection, ChordSection, 0, 8000, 10000);
    ConcatWindows(Intro + BuildUp + Drop + VocalSection + ChordSection, ArpSection, 0, 10000, 12000);
    ConcatWindows(Intro + BuildUp + Drop + VocalSection + ChordSection + ArpSection, Climax, 0, 12000, 14000);
    ConcatWindows(Intro + BuildUp + Drop + VocalSection + ChordSection + ArpSection + Climax, Outro, 0, 14000, 15000);
  }

  /** Adjacent order gives order between any two hits. */
  lemma {:induction false} InWindowOrdered(s: seq<Hit>, lo: nat, hi: nat, i: nat, j: nat)
    requires InWindow(s, lo, hi) && i <= j < |s|
    ensures s[i].time <= s[j].time
    decreases j - i
  {
    if i < j {
      InWindowOrdered(s, lo, hi, i, j - 1);
    }
  }

  // ----- Progress -----

  function Min(a: int, b: int): int {
    if a <= b then a else b
  }

  /** `Math.min(100, Math.floor((time / 15000) * 100))`, in exact arithmetic. */
  function ProgressAt(time: nat): (p: nat)
    ensures p <= 100
    ensures time < DemoLength ==> p < 100 && p * DemoLength <= time * 100 < (p + 1) * DemoLength
    ensures time >= DemoLength ==> p == 100
  {
    Min(100, time * 100 / DemoLength)
  }

  /** Later hits never report less progress. */
  lemma ProgressMonotone(t1: nat, t2: nat)
    requires t1 <= t2
    ensures ProgressAt(t1) <= ProgressAt(t2)
  {
    assert t1 * 100 <= t2 * 100;
  }

  /** Every hit of the demo reports a progress in 0..99, and the reports never go
      down along the sequence; 100 is reported only by the end of the demo. */
  lemma DemoProgressBounded(i: nat, j: nat)
    requires i <= j < |Demo()|
    ensures ProgressAt(Demo()[i].time) <= ProgressAt(Demo()[j].time) < 100
  {
    DemoWellFormed();
    InWindowOrdered(Demo(), 0, DemoLength, i, j);
    ProgressMonotone(Demo()[i].time, Demo()[j].time);
  }
}
