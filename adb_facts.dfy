/**
 * What the readings of `Adb` guarantee: each reads back what `adb` prints in its own
 * format, the device loop equals a filter followed by a map over the listing's lines, and
 * the pid query is asked at most four times.
 */
module AdbFacts {
  import opened Wrappers
  import opened Strings
  import opened Host
  import opened Archs
  import opened Adb
  import Paths

  // ---------------------------------------------------------------- architectures

  /** The ABI names of `archs`, as the device reports them. */
  function AbiList(archs: seq<Arch>): (r: seq<string>)
    ensures |r| == |archs| && forall k | 0 <= k < |archs| :: r[k] == Android(archs[k])
  {
    seq(|archs|, k requires 0 <= k < |archs| => Android(archs[k]))
  }

  lemma AbiNameEnds(a: Arch)
    ensures var n := Android(a);
      n != [] && !InClass(n[0], WhitespacesAndNewlines) && !InClass(n[|n| - 1], WhitespacesAndNewlines)
  {
  }

  lemma {:induction false} KnownArchsOfNames(archs: seq<Arch>)
    ensures KnownArchs(AbiList(archs)) == archs
    decreases |archs|
  {
    if archs != [] {
      assert AbiList(archs)[1..] == AbiList(archs[1..]);
      FromAndroidInverse(archs[0]);
      KnownArchsOfNames(archs[1..]);
    }
  }

  /** `compactMap` keeps the order of the list: the architectures of two lists in a row are
      those of the first followed by those of the second. */
  lemma {:induction false} KnownArchsAppend(a: seq<string>, b: seq<string>)
    ensures KnownArchs(a + b) == KnownArchs(a) + KnownArchs(b)
    decreases |a|
  {
    if a == [] {
      assert a + b == b;
    } else {
      assert (a + b)[1..] == a[1..] + b;
      KnownArchsAppend(a[1..], b);
    }
  }

  /** One name reads as its architecture when it is in the table, and as nothing otherwise. */
  lemma KnownArchsOne(n: string)
    ensures KnownArchs([n]) == if n in AbiNames then [FromAndroid(n).value] else []
  {
    assert [n][1..] == [];
  }

  /** Any comma-separated ABI list, known names or not, followed by whitespace, reads as the
      architectures of its known names, in order. */
  lemma AbiNamesRead(names: seq<string>, trail: string)
    requires names != [] && names[0] != [] && Last(names) != []
    requires !InClass(names[0][0], WhitespacesAndNewlines)
    requires !InClass(Last(names)[|Last(names)| - 1], WhitespacesAndNewlines)
    requires forall k | 0 <= k < |names| :: ',' !in names[k]
    requires forall i | 0 <= i < |trail| :: InClass(trail[i], WhitespacesAndNewlines)
    ensures ParseArchs(Join(names, ",") + trail) == KnownArchs(names)
  {
    var text := Join(names, ",");
    JoinStartsWithHead(names, ",");
    Paths.JoinEndsWithLast(names, ",");
    assert text[0] == names[0][0];
    assert text[|text| - 1] == Last(names)[|Last(names)| - 1];
    TrimPadding("", text, trail, WhitespacesAndNewlines);
    assert "" + text + trail == text + trail;
    SplitJoin(names, ',');
  }

  /** The comma-separated ABI list of a device, with any trailing newline, reads back as its
      architectures in order. */
  lemma ArchsRoundTrip(archs: seq<Arch>, trail: string)
    requires archs != []
    requires forall i | 0 <= i < |trail| :: InClass(trail[i], WhitespacesAndNewlines)
    ensures ParseArchs(Join(AbiList(archs), ",") + trail) == archs
  {
    AbiNameEnds(archs[0]);
    AbiNameEnds(Last(archs));
    AbiNamesRead(AbiList(archs), trail);
    KnownArchsOfNames(archs);
  }

  /** A device that also lists the retired `armeabi` ABI: that name is dropped and the others
      keep their order, so the first architecture is still the device's preferred one. */
  lemma RetiredAbiDropped()
    ensures ParseArchs("arm64-v8a,armeabi-v7a,armeabi\n") == [Aarch64, Armv7]
  {
    var names := ["arm64-v8a", "armeabi-v7a", "armeabi"];
    RetiredAbiJoined(names);
    AbiNamesRead(names, "\n");
    RetiredAbiNames(names);
  }

  lemma RetiredAbiJoined(names: seq<string>)
    requires names == ["arm64-v8a", "armeabi-v7a", "armeabi"]
    ensures "arm64-v8a,armeabi-v7a,armeabi\n" == Join(names, ",") + "\n"
  {
    assert names[1..][1..] == ["armeabi"];
    assert Join(names[1..], ",") == "armeabi-v7a" + "," + "armeabi";
    assert Join(names, ",") == "arm64-v8a" + "," + ("armeabi-v7a" + "," + "armeabi");
  }

  lemma RetiredAbiNames(names: seq<string>)
    requires names == ["arm64-v8a", "armeabi-v7a", "armeabi"]
    ensures KnownArchs(names) == [Aarch64, Armv7]
  {
    KnownArchsAppend([names[0]], names[1..]);
    KnownArchsAppend([names[1]], [names[2]]);
    assert names == [names[0]] + ([names[1]] + [names[2]]);
    KnownArchsOne(names[0]);
    KnownArchsOne(names[1]);
    KnownArchsOne(names[2]);
  }

  // ---------------------------------------------------------------- the device list

  /** Filtering the listing keeps the order of its lines. */
  lemma {:induction false} DeviceLinesAppend(a: seq<string>, b: seq<string>)
    ensures DeviceLines(a + b) == DeviceLines(a) + DeviceLines(b)
    decreases |a|
  {
    if a == [] {
      assert a + b == b;
    } else {
      assert (a + b)[1..] == a[1..] + b;
      DeviceLinesAppend(a[1..], b);
    }
  }

  /** The lines with exactly one ` device `: the ones that yield a device. */
  function TwoSided(lines: seq<string>): (r: seq<string>)
    ensures forall l | l in r :: l in lines && Sides(l).Some?
    ensures forall l | l in lines && Sides(l).Some? :: l in r
  {
    if lines == [] then []
    else
      assert forall l | l in lines :: l == lines[0] || l in lines[1..];
      (if Sides(lines[0]).Some? then [lines[0]] else []) + TwoSided(lines[1..])
  }

  /** The serial of a two-sided line. */
  function SerialOf(line: string): string
    requires Sides(line).Some?
  {
    Trim(Sides(line).value[0], WhitespacesAndNewlines)
  }

  /** The device a two-sided line yields once its architectures were read. */
  function DeviceOf(exec: seq<string> -> ProcessResult, adb: string, line: string): Device
    requires Sides(line).Some? && LineReadable(line)
  {
    var a := Sides(line).value;
    ReadDevice(a[0], a[1], ParseArchs(exec(ArchsCommand(adb, SerialOf(line))).Stdout()))
  }

  /** Every listed line's architecture query succeeds. */
  predicate AllAnswered(exec: seq<string> -> ProcessResult, adb: string, lines: seq<string>) {
    forall l | l in lines && Sides(l).Some? :: exec(ArchsCommand(adb, SerialOf(l))).status == 0
  }

  /** The devices of the two-sided lines, in order. */
  function DevicesOf(exec: seq<string> -> ProcessResult, adb: string, lines: seq<string>): seq<Device>
    requires forall l | l in lines :: Sides(l).Some? && LineReadable(l)
  {
    if lines == [] then [] else [DeviceOf(exec, adb, lines[0])] + DevicesOf(exec, adb, lines[1..])
  }

  /** The architecture queries of the two-sided lines, in order. */
  function QueriesOf(adb: string, lines: seq<string>): seq<Action>
    requires forall l | l in lines :: Sides(l).Some?
  {
    if lines == [] then [] else [Ran(ArchsCommand(adb, SerialOf(lines[0])))] + QueriesOf(adb, lines[1..])
  }

  /** One step of the device loop, in the terms of the reference definitions. */
  lemma ListFromStep(exec: seq<string> -> ProcessResult, adb: string, lines: seq<string>,
                     i: nat, found: seq<Device>, done: seq<Action>)
    requires i < |lines| && forall k | i <= k < |lines| :: LineReadable(lines[k])
    ensures var line := lines[i];
      ListFrom(exec, adb, lines, i, found, done) ==
        if Sides(line).None? then ListFrom(exec, adb, lines, i + 1, found, done)
        else if exec(ArchsCommand(adb, SerialOf(line))).status != 0 then
          Listing(None, done + [Ran(ArchsCommand(adb, SerialOf(line)))])
        else
          ListFrom(exec, adb, lines, i + 1, found + [DeviceOf(exec, adb, line)],
                   done + [Ran(ArchsCommand(adb, SerialOf(line)))])
  {
  }

  /** One step of the filter and of the all-answered test. */
  lemma TwoSidedStep(exec: seq<string> -> ProcessResult, adb: string, lines: seq<string>, i: nat)
    requires i < |lines|
    ensures var line := lines[i];
      TwoSided(lines[i..]) == (if Sides(line).Some? then [line] else []) + TwoSided(lines[i + 1..]) &&
      (AllAnswered(exec, adb, lines[i..]) <==>
        (Sides(line).Some? ==> exec(ArchsCommand(adb, SerialOf(line))).status == 0) &&
        AllAnswered(exec, adb, lines[i + 1..]))
  {
    assert lines[i..] == [lines[i]] + lines[i + 1..];
    assert forall l | l in lines[i..] :: l == lines[i] || l in lines[i + 1..];
    assert lines[i] in lines[i..];
  }

  /**
   * The device loop, from line `i` on, is a filter followed by a map: it succeeds exactly
   * when every two-sided line's query succeeds, and then yields one device per two-sided line,
   * in order, after querying each of them once.
   */
  lemma {:induction false} ListFromSpec(exec: seq<string> -> ProcessResult, adb: string, lines: seq<string>,
                                        i: nat, found: seq<Device>, done: seq<Action>)
    requires i <= |lines| && forall k | i <= k < |lines| :: LineReadable(lines[k])
    ensures var l := ListFrom(exec, adb, lines, i, found, done);
            var two := TwoSided(lines[i..]);
      (l.devices.Some? <==> AllAnswered(exec, adb, lines[i..])) &&
      (l.devices.Some? ==> l.devices.value == found + DevicesOf(exec, adb, two) &&
                           l.actions == done + QueriesOf(adb, two))
    decreases |lines| - i
  {
    if i < |lines| {
      var line := lines[i];
      var rest := TwoSided(lines[i + 1..]);
      ListFromStep(exec, adb, lines, i, found, done);
      TwoSidedStep(exec, adb, lines, i);
      if Sides(line).None? {
        ListFromSpec(exec, adb, lines, i + 1, found, done);
        assert [] + rest == rest;
      } else {
        var cmd := ArchsCommand(adb, SerialOf(line));
        assert TwoSided(lines[i..]) == [line] + rest;
        if exec(cmd).status == 0 {
          var d := DeviceOf(exec, adb, line);
          var done' := done + [Ran(cmd)];
          ListFromSpec(exec, adb, lines, i + 1, found + [d], done');
          ConsDevices(exec, adb, line, rest, found, done);
          var l := ListFrom(exec, adb, lines, i + 1, found + [d], done');
          assert ListFrom(exec, adb, lines, i, found, done) == l;
          assert l.devices.Some? ==> l.devices.value == found + DevicesOf(exec, adb, [line] + rest);
          assert l.devices.Some? ==> l.actions == done + QueriesOf(adb, [line] + rest);
        }
      }
    }
  }

  /** Adding one two-sided line in front adds its device and its query in front. */
  lemma ConsDevices(exec: seq<string> -> ProcessResult, adb: string, line: string, rest: seq<string>,
                    found: seq<Device>, done: seq<Action>)
    requires Sides(line).Some? && LineReadable(line)
    requires forall l | l in rest :: Sides(l).Some? && LineReadable(l)
    ensures found + DevicesOf(exec, adb, [line] + rest) == (found + [DeviceOf(exec, adb, line)]) + DevicesOf(exec, adb, rest)
    ensures done + QueriesOf(adb, [line] + rest) == (done + [Ran(ArchsCommand(adb, SerialOf(line)))]) + QueriesOf(adb, rest)
  {
    var lines := [line] + rest;
    assert lines[0] == line && lines[1..] == rest;
    var d, q := DeviceOf(exec, adb, line), Ran(ArchsCommand(adb, SerialOf(line)));
    assert DevicesOf(exec, adb, lines) == [d] + DevicesOf(exec, adb, rest);
    assert QueriesOf(adb, lines) == [q] + QueriesOf(adb, rest);
    Assoc(found, [d], DevicesOf(exec, adb, rest));
    Assoc(done, [q], QueriesOf(adb, rest));
  }

  /** `devicesList` in one sentence: the devices of the two-sided listed lines, in order. */
  lemma ListingIsFilterThenMap(exec: seq<string> -> ProcessResult, adb: string, lines: seq<string>, done: seq<Action>)
    requires forall k | 0 <= k < |lines| :: LineReadable(lines[k])
    ensures var l := ListFrom(exec, adb, lines, 0, [], done);
      (l.devices.Some? <==> AllAnswered(exec, adb, lines)) &&
      (l.devices.Some? ==> l.devices.value == DevicesOf(exec, adb, TwoSided(lines)) &&
                           l.actions == done + QueriesOf(adb, TwoSided(lines)))
  {
    ListFromSpec(exec, adb, lines, 0, [], done);
    assert lines[0..] == lines;
  }

  // ---------------------------------------------------------------- the `adb devices -l` format

  /** The columns `adb devices -l` prints after the state: a USB-attached device has a
      leading `usb:` column, the others start at `product:`. */
  function AdbColumns(usb: Option<string>, product: string, model: string, device: string,
                      transport: string): seq<string> {
    (if usb.Some? then ["usb:" + usb.value] else []) +
    ["product:" + product, "model:" + model, "device:" + device, "transport_id:" + transport]
  }

  /** One line of `adb devices -l`: the serial, padded with spaces, the state and the columns. */
  function AdbDeviceLine(serial: string, pad: string, columns: seq<string>): string {
    serial + pad + StateSeparator + Join(columns, " ")
  }

  lemma Mismatch(x: string, m: nat)
    requires m < |StateSeparator| && (m >= |x| || x[m] != StateSeparator[m])
    ensures !StartsWith(x, StateSeparator)
  {
    if |StateSeparator| <= |x| {
      assert x[..|StateSeparator|][m] == x[m];
    }
  }

  /** Columns without spaces, none of them the word `device`, never spell ` device ` once joined. */
  lemma {:induction false} NoStateWord(tokens: seq<string>)
    requires forall k | 0 <= k < |tokens| :: ' ' !in tokens[k] && tokens[k] != "device"
    ensures !Contains(Join(tokens, " "), StateSeparator)
    decreases |tokens|
  {
    var s := Join(tokens, " ");
    if |tokens| <= 1 {
      assert ' ' !in s;
      forall i | 0 <= i <= |s|
        ensures !StartsWith(s[i..], StateSeparator)
      {
        Mismatch(s[i..], 0);
      }
    } else {
      var t0 := tokens[0];
      var t1 := tokens[1];
      var rest := Join(tokens[1..], " ");
      assert s == t0 + " " + rest;
      NoStateWord(tokens[1..]);
      JoinStartsWithHead(tokens[1..], " ");
      forall i | 0 <= i <= |s|
        ensures !StartsWith(s[i..], StateSeparator)
      {
        if i < |t0| {
          assert s[i..][0] == t0[i];
          Mismatch(s[i..], 0);
        } else if i == |t0| {
          assert s[i..] == " " + rest;
          if |t1| > 6 {
            assert s[i..][7] == t1[6];
            Mismatch(s[i..], 7);
          } else if |t1| == 6 {
            assert exists k | 0 <= k < 6 :: t1[k] != "device"[k];
            var k :| 0 <= k < 6 && t1[k] != "device"[k];
            assert s[i..][k + 1] == t1[k];
            Mismatch(s[i..], k + 1);
          } else if |tokens| == 2 {
            assert rest == t1;
            Mismatch(s[i..], |t1| + 1);
          } else {
            assert tokens[1..][1..] == tokens[2..];
            assert rest == t1 + " " + Join(tokens[2..], " ");
            assert s[i..][|t1| + 1] == ' ';
            Mismatch(s[i..], |t1| + 1);
          }
        } else {
          assert s[i..] == rest[i - |t0| - 1..];
        }
      }
    }
  }

  /** A `key:value` column whose value holds no ':' yields that value. */
  lemma ValueOf(key: string, value: string)
    requires ':' !in key && ':' !in value
    ensures |Split(key + ":" + value, ":")| > 1 && Value(key + ":" + value) == value
  {
    SplitWhole(value, ":");
    SplitAfter(key, value, ":");
  }

  lemma KeyColumn(key: string, value: string)
    requires ' ' !in key && ' ' !in value
    ensures ' ' !in key + ":" + value && key + ":" + value != "device"
  {
    assert (key + ":" + value)[|key|] == ':';
  }

  /** No column of the listing holds a space or is the state word. */
  lemma ColumnsClean(usb: Option<string>, product: string, model: string, device: string, transport: string)
    requires usb.Some? ==> ' ' !in usb.value
    requires ' ' !in product && ' ' !in model && ' ' !in device && ' ' !in transport
    ensures var columns := AdbColumns(usb, product, model, device, transport);
      forall k | 0 <= k < |columns| :: ' ' !in columns[k] && columns[k] != "device"
  {
    var tail := ["product:" + product, "model:" + model, "device:" + device, "transport_id:" + transport];
    KeyColumn("product", product);
    KeyColumn("model", model);
    KeyColumn("device", device);
    KeyColumn("transport_id", transport);
    if usb.Some? {
      KeyColumn("usb", usb.value);
    }
  }

  /** ` device ` cannot start inside a serial followed by its padding. */
  lemma PaddedSerial(serial: string, pad: string, right: string)
    requires forall i | 0 <= i < |serial| :: !InClass(serial[i], WhitespacesAndNewlines)
    requires forall i | 0 <= i < |pad| :: pad[i] == ' '
    ensures var left := serial + pad;
      forall i | 0 <= i < |left| :: !StartsWith((left + StateSeparator + right)[i..], StateSeparator)
  {
    var left := serial + pad;
    var line := left + StateSeparator + right;
    forall i | 0 <= i < |left|
      ensures !StartsWith(line[i..], StateSeparator)
    {
      if i < |serial| {
        assert line[i..][0] == serial[i];
        assert InClass(' ', WhitespacesAndNewlines);
        Mismatch(line[i..], 0);
      } else if i + 1 < |left| {
        assert line[i..][1] == pad[i + 1 - |serial|];
        Mismatch(line[i..], 1);
      } else {
        assert line[i..][1] == StateSeparator[0];
        Mismatch(line[i..], 1);
      }
    }
  }

  lemma ContainsAt(left: string, sep: string, right: string)
    requires sep != []
    ensures Contains(left + sep + right, sep)
  {
    var line := left + sep + right;
    assert line[|left|..][..|sep|] == sep;
  }

  lemma SplitPaddedSerial(serial: string, pad: string, right: string)
    requires forall i | 0 <= i < |serial| :: !InClass(serial[i], WhitespacesAndNewlines)
    requires forall i | 0 <= i < |pad| :: pad[i] == ' '
    requires !Contains(right, StateSeparator)
    ensures Split(serial + pad + StateSeparator + right, StateSeparator) == [serial + pad, right]
  {
    SplitNoOccurrence(right, StateSeparator);
    PaddedSerial(serial, pad, right);
    SplitAt(serial + pad, right, StateSeparator);
  }

  /** The padded serial cannot hide ` device `, so the line splits right after it. */
  lemma SidesOfAdbLine(serial: string, pad: string, columns: seq<string>)
    requires forall i | 0 <= i < |serial| :: !InClass(serial[i], WhitespacesAndNewlines)
    requires forall i | 0 <= i < |pad| :: pad[i] == ' '
    requires forall k | 0 <= k < |columns| :: ' ' !in columns[k] && columns[k] != "device"
    ensures Sides(AdbDeviceLine(serial, pad, columns)) == Some([serial + pad, Join(columns, " ")])
    ensures Contains(AdbDeviceLine(serial, pad, columns), StateSeparator)
  {
    NoStateWord(columns);
    SplitPaddedSerial(serial, pad, Join(columns, " "));
    ContainsAt(serial + pad, StateSeparator, Join(columns, " "));
  }

  /** The model and device columns, wherever the `usb:` column puts them, read back their
      values. */
  lemma ModelDeviceValues(usb: Option<string>, product: string, model: string, device: string,
                          transport: string)
    requires ':' !in model && ':' !in device
    ensures var columns := AdbColumns(usb, product, model, device, transport);
      var col := ModelColumn(usb.None?);
      col + 1 < |columns| && |Split(columns[col], ":")| > 1 && |Split(columns[col + 1], ":")| > 1 &&
      Value(columns[col]) == model && Value(columns[col + 1]) == device
  {
    var columns := AdbColumns(usb, product, model, device, transport);
    var col := ModelColumn(usb.None?);
    assert columns[col] == "model" + ":" + model && columns[col + 1] == "device" + ":" + device;
    ValueOf("model", model);
    ValueOf("device", device);
  }

  /**
   * A line in the format of `adb devices -l` yields the device it describes, provided the
   * serial names an emulator exactly when the line has no `usb:` column. The serial's padding
   * is trimmed away and the model and codename are read from their own columns.
   */
  lemma ReadsAdbDeviceLine(serial: string, pad: string, usb: Option<string>, product: string,
                           model: string, device: string, transport: string, archs: seq<Arch>)
    requires serial != [] && forall i | 0 <= i < |serial| :: !InClass(serial[i], WhitespacesAndNewlines)
    requires forall i | 0 <= i < |pad| :: pad[i] == ' '
    requires usb.Some? ==> ' ' !in usb.value
    requires ' ' !in product && ' ' !in model && ' ' !in device && ' ' !in transport
    requires ':' !in model && ':' !in device
    requires usb.None? <==> Contains(serial, "emulator")
    ensures var line := AdbDeviceLine(serial, pad, AdbColumns(usb, product, model, device, transport));
      Contains(line, StateSeparator) && LineReadable(line) && Sides(line) == Some([serial + pad, Join(AdbColumns(usb, product, model, device, transport), " ")]) &&
      ReadDevice(serial + pad, Join(AdbColumns(usb, product, model, device, transport), " "), archs) ==
        Device(serial, archs, model, device, usb.None?)
  {
    var columns := AdbColumns(usb, product, model, device, transport);
    var left := serial + pad;
    var right := Join(columns, " ");
    var line := AdbDeviceLine(serial, pad, columns);
    ColumnsClean(usb, product, model, device, transport);
    SidesOfAdbLine(serial, pad, columns);
    TrimPadding("", serial, pad, WhitespacesAndNewlines);
    assert "" + serial + pad == left;
    assert Trim(left, WhitespacesAndNewlines) == serial;
    SplitJoin(columns, ' ');
    assert Split(right, " ") == columns;
    ModelDeviceValues(usb, product, model, device, transport);
    assert ColumnsReadable(serial, right);
    assert LineReadable(line);
  }

  // ---------------------------------------------------------------- install and start

  /** The install check reads the last line only: with the output given as lines, it
      succeeds exactly when the last one says `Success`. */
  lemma InstallChecksLastLine(lines: seq<string>, trail: string)
    requires lines != [] && forall k | 0 <= k < |lines| :: '\n' !in lines[k]
    requires lines[0] != [] && !IsNewline(lines[0][0])
    requires Last(lines) != [] && !IsNewline(Last(lines)[|Last(lines)| - 1])
    requires forall i | 0 <= i < |trail| :: IsNewline(trail[i])
    ensures InstallSucceeded(Join(lines, "\n") + trail) <==> Contains(Last(lines), "Success")
  {
    var text := Join(lines, "\n");
    JoinStartsWithHead(lines, "\n");
    Paths.JoinEndsWithLast(lines, "\n");
    assert text[0] == lines[0][0];
    assert text[|text| - 1] == Last(lines)[|Last(lines)| - 1];
    TrimPadding("", text, trail, Newlines);
    assert "" + text + trail == text + trail;
    SplitJoin(lines, '\n');
  }

  /** The exact confirmation, surrounded by any whitespace, passes the start check. */
  lemma StartConfirmed(intent: string, lead: string, trail: string)
    requires forall i | 0 <= i < |lead| :: InClass(lead[i], WhitespacesAndNewlines)
    requires forall i | 0 <= i < |trail| :: InClass(trail[i], WhitespacesAndNewlines)
    ensures Trim(lead + StartConfirmation(intent) + trail, WhitespacesAndNewlines) == StartConfirmation(intent)
  {
    var c := StartConfirmation(intent);
    assert c[0] == 'S' && c[|c| - 1] == '}';
    TrimPadding(lead, c, trail, WhitespacesAndNewlines);
  }

  /** The confirmation names one intent: a start reported for another component fails. */
  lemma ConfirmationNamesIntent(x: string, y: string)
    requires StartConfirmation(x) == StartConfirmation(y)
    ensures x == y
  {
    var n := |"Starting: Intent { cmp="|;
    assert x == StartConfirmation(x)[n..n + |x|];
    assert y == StartConfirmation(y)[n..n + |y|];
  }

  /** Within one application the intent names the activity. */
  lemma IntentNamesActivity(appId: string, a: string, b: string)
    requires Intent(appId, a) == Intent(appId, b)
    ensures a == b
  {
    var n := |appId| + 2;
    assert a == Intent(appId, a)[n..];
    assert b == Intent(appId, b)[n..];
  }

  // ---------------------------------------------------------------- the pid retries

  lemma {:induction false} RetriesShape(cmd: seq<string>, lo: nat, hi: nat)
    requires 2 <= lo <= hi
    ensures |PidsActions(cmd, lo, hi)| == 3 * (hi - lo)
    ensures forall k | 0 <= k < hi - lo ::
              PidsActions(cmd, lo, hi)[3 * k] == Slept(1) && PidsActions(cmd, lo, hi)[3 * k + 1] == Ran(ShLookup) &&
              PidsActions(cmd, lo, hi)[3 * k + 2] == Ran(cmd)
    decreases hi - lo
  {
    if lo < hi {
      RetriesShape(cmd, lo + 1, hi);
      var acts := PidsActions(cmd, lo, hi);
      var rest := PidsActions(cmd, lo + 1, hi);
      assert acts == [Slept(1), Ran(ShLookup), Ran(cmd)] + rest;
      forall k | 0 <= k < hi - lo
        ensures acts[3 * k] == Slept(1) && acts[3 * k + 1] == Ran(ShLookup) && acts[3 * k + 2] == Ran(cmd)
      {
        if k > 0 {
          assert acts[3 * k] == rest[3 * (k - 1)];
          assert acts[3 * k + 1] == rest[3 * (k - 1) + 1];
          assert acts[3 * k + 2] == rest[3 * (k - 1) + 2];
        }
      }
    }
  }

  /**
   * From the default first try, the pid query is asked `hi - 1` times, at most four. Every
   * asking follows a lookup of `sh`, and every lookup but the first follows a one-second wait.
   */
  lemma PidsTries(cmd: seq<string>, hi: nat)
    requires 1 < hi <= PidsAttempts
    ensures var acts := PidsActions(cmd, 1, hi);
      |acts| == 3 * (hi - 1) - 1 && acts[0] == Ran(ShLookup) && acts[1] == Ran(cmd) &&
      (forall k | 1 <= k < hi - 1 ::
         acts[3 * k - 1] == Slept(1) && acts[3 * k] == Ran(ShLookup) && acts[3 * k + 1] == Ran(cmd)) &&
      hi - 1 <= 4
  {
    RetriesShape(cmd, 2, hi);
    var acts := PidsActions(cmd, 1, hi);
    var rest := PidsActions(cmd, 2, hi);
    assert acts == [Ran(ShLookup), Ran(cmd)] + rest;
    forall k | 1 <= k < hi - 1
      ensures acts[3 * k - 1] == Slept(1) && acts[3 * k] == Ran(ShLookup) && acts[3 * k + 1] == Ran(cmd)
    {
      assert acts[3 * k - 1] == rest[3 * (k - 1)];
      assert acts[3 * k] == rest[3 * (k - 1) + 1];
      assert acts[3 * k + 1] == rest[3 * (k - 1) + 2];
    }
  }

  // ---------------------------------------------------------------- the log

  /** The log levels that have a colour of their own. */
  const Levels: seq<string> := ["A", "D", "E", "I", "V", "W"]

  /** The six levels have six different circles, and every other level gets the white one. */
  lemma GlyphTable(a: string, b: string)
    ensures Glyph(a) == "\U{26AA}\U{FE0F}" <==> a !in Levels
    ensures a in Levels && b in Levels && Glyph(a) == Glyph(b) ==> a == b
  {
  }

  lemma {:induction false} KeptAppend(xs: seq<string>, ys: seq<string>)
    ensures KeptColumns(xs + ys) == KeptColumns(xs) + KeptColumns(ys)
    decreases |ys|
  {
    if ys == [] {
      assert xs + ys == xs;
    } else {
      var init := ys[..|ys| - 1];
      assert (xs + ys)[..|xs + ys| - 1] == xs + init;
      KeptAppend(xs, init);
    }
  }

  lemma {:induction false} KeptWords(ws: seq<string>)
    requires forall k | 0 <= k < |ws| :: !Dropped(ws[k])
    ensures KeptColumns(ws) == ws
    decreases |ws|
  {
    if ws != [] {
      var init := ws[..|ws| - 1];
      KeptWords(init);
      assert !Dropped(ws[|ws| - 1]);
      assert ws == init + [ws[|ws| - 1]];
    }
  }

  lemma {:induction false} KeptFill(fill: seq<string>)
    requires forall k | 0 <= k < |fill| :: fill[k] == "" || fill[k] == ":"
    ensures KeptColumns(fill) == []
    decreases |fill|
  {
    if fill != [] {
      KeptFill(fill[..|fill| - 1]);
    }
  }

  /** Four words joined by single spaces split back into four columns. */
  lemma FourWords(words: seq<string>)
    requires |words| == 4 && forall k | 0 <= k < 4 :: ' ' !in words[k]
    ensures |Split(Join(words, " "), " ")| == 4
  {
    SplitJoin(words, ' ');
  }

  lemma MarkersAreShort()
    ensures |Split(MainMarker, " ")| == 4 && |Split(CrashMarker, " ")| == 4
  {
    MarkerWords("main");
    MarkerWords("crash");
  }

  /** A banner line: three fixed words and the buffer's name. */
  lemma MarkerWords(buffer: string)
    requires ' ' !in buffer
    ensures |Split(BannerPrefix + buffer, " ")| == 4
  {
    var words := ["---------", "beginning", "of", buffer];
    assert Join(words[3..], " ") == buffer;
    assert Join(words[2..], " ") == "of " + buffer;
    assert Join(words[1..], " ") == "beginning of " + buffer;
    assert Join(words, " ") == BannerPrefix + buffer;
    FourWords(words);
  }

  /** The columns of a line in `logcat`'s threadtime format whose process and thread ids have
      four digits: each id is right-aligned in five places, so an empty column precedes it;
      the tag is followed by its padding and ':', then the message's words. */
  function ThreadtimeColumns(date: string, clock: string, millis: string, pid: string, tid: string,
                             level: string, tag: string, fill: seq<string>, words: seq<string>): seq<string> {
    [date, clock + "." + millis, "", pid, "", tid, level, tag] + fill + words
  }

  lemma ThreadtimeShape(date: string, clock: string, millis: string, pid: string, tid: string,
                        level: string, tag: string, fill: seq<string>, words: seq<string>)
    ensures var c := ThreadtimeColumns(date, clock, millis, pid, tid, level, tag, fill, words);
      |c| == 8 + |fill| + |words| && c[1] == clock + "." + millis && c[6] == level && c[7] == tag &&
      c[8..] == fill + words
  {
    var head := [date, clock + "." + millis, "", pid, "", tid, level, tag];
    var c := ThreadtimeColumns(date, clock, millis, pid, tid, level, tag, fill, words);
    assert c == head + (fill + words);
  }

  lemma ThreadtimeSpaceFree(date: string, clock: string, millis: string, pid: string, tid: string,
                            level: string, tag: string, fill: seq<string>, words: seq<string>)
    requires ' ' !in date && ' ' !in clock && ' ' !in millis && ' ' !in pid && ' ' !in tid && ' ' !in level
    requires ' ' !in tag
    requires forall k | 0 <= k < |fill| :: fill[k] == "" || fill[k] == ":"
    requires forall k | 0 <= k < |words| :: ' ' !in words[k]
    ensures var c := ThreadtimeColumns(date, clock, millis, pid, tid, level, tag, fill, words);
      forall k | 0 <= k < |c| :: ' ' !in c[k]
  {
    var head := [date, clock + "." + millis, "", pid, "", tid, level, tag];
    var c := ThreadtimeColumns(date, clock, millis, pid, tid, level, tag, fill, words);
    assert ' ' !in clock + "." + millis;
    forall k | 0 <= k < |c|
      ensures ' ' !in c[k]
    {
      if k < 8 {
        assert c[k] == head[k];
      } else if k < 8 + |fill| {
        assert c[k] == fill[k - 8];
      } else {
        assert c[k] == words[k - 8 - |fill|];
      }
    }
  }

  /**
   * A threadtime line is printed as the level's circle, the time to the second in brackets,
   * the tag and the message's words, each once and separated by single spaces.
   */
  lemma ThreadtimeReformatted(date: string, clock: string, millis: string, pid: string, tid: string,
                              level: string, tag: string, fill: seq<string>, words: seq<string>)
    requires ' ' !in date && ' ' !in clock && ' ' !in millis && ' ' !in pid && ' ' !in tid && ' ' !in level
    requires '.' !in clock
    requires tag != [] && forall i | 0 <= i < |tag| :: !InClass(tag[i], WhitespacesAndNewlines)
    requires forall k | 0 <= k < |fill| :: fill[k] == "" || fill[k] == ":"
    requires forall k | 0 <= k < |words| :: ' ' !in words[k] && !Dropped(words[k])
    requires |fill| + |words| > 0
    ensures LogcatLine(Join(ThreadtimeColumns(date, clock, millis, pid, tid, level, tag, fill, words), " ")) ==
            Join([Glyph(level), "[" + clock + "]", tag] + words, " ")
  {
    var c := ThreadtimeColumns(date, clock, millis, pid, tid, level, tag, fill, words);
    ThreadtimeShape(date, clock, millis, pid, tid, level, tag, fill, words);
    ThreadtimeSplits(date, clock, millis, pid, tid, level, tag, fill, words);
    SplitAfter(clock, millis, ".");
    assert Split(c[1], ".")[0] == clock;
    TagUntrimmed(tag);
    KeptMessage(fill, words);
  }

  /** The printed threadtime line splits back into its columns and is no banner. */
  lemma ThreadtimeSplits(date: string, clock: string, millis: string, pid: string, tid: string,
                         level: string, tag: string, fill: seq<string>, words: seq<string>)
    requires ' ' !in date && ' ' !in clock && ' ' !in millis && ' ' !in pid && ' ' !in tid && ' ' !in level
    requires tag != [] && forall i | 0 <= i < |tag| :: !InClass(tag[i], WhitespacesAndNewlines)
    requires forall k | 0 <= k < |fill| :: fill[k] == "" || fill[k] == ":"
    requires forall k | 0 <= k < |words| :: ' ' !in words[k]
    requires |fill| + |words| > 0
    ensures var c := ThreadtimeColumns(date, clock, millis, pid, tid, level, tag, fill, words);
      var line := Join(c, " ");
      Split(line, " ") == c && line != MainMarker && line != CrashMarker
  {
    var c := ThreadtimeColumns(date, clock, millis, pid, tid, level, tag, fill, words);
    ThreadtimeShape(date, clock, millis, pid, tid, level, tag, fill, words);
    assert ' ' !in tag by {
      assert InClass(' ', WhitespacesAndNewlines);
    }
    ThreadtimeSpaceFree(date, clock, millis, pid, tid, level, tag, fill, words);
    SplitJoin(c, ' ');
    MarkersAreShort();
  }

  /** A tag without padding is printed as it is. */
  lemma TagUntrimmed(tag: string)
    requires tag != [] && forall i | 0 <= i < |tag| :: !InClass(tag[i], WhitespacesAndNewlines)
    ensures Trim(tag, WhitespacesAndNewlines) == tag
  {
    TrimPadding("", tag, "", WhitespacesAndNewlines);
    assert "" + tag + "" == tag;
  }

  /** The padding after the tag is dropped and the message's words are kept. */
  lemma KeptMessage(fill: seq<string>, words: seq<string>)
    requires forall k | 0 <= k < |fill| :: fill[k] == "" || fill[k] == ":"
    requires forall k | 0 <= k < |words| :: !Dropped(words[k])
    ensures KeptColumns(fill + words) == words
  {
    KeptAppend(fill, words);
    KeptFill(fill);
    KeptWords(words);
    assert [] + words == words;
  }
}
