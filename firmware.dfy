/**
 * One pass of main's endless loop (main.c:147-203): read the six axes, send
 * their line over UART0, then set the LEDs. The loop itself, the hardware
 * set-up before it and the Delay calls are not modelled.
 */
module Firmware {
  import opened Numerals
  import opened Sensor
  import opened Record
  import opened Uart
  import opened Led

  /** The text main.c sends before each value: the label and a space. */
  const LITERALS: seq<string> := ["X: ", "Y: ", "Z: ", "PSSI: ", "PHI: ", "RHO: "]

  /** What is left of the line for sample s once fields 0 to k - 1 are sent. */
  function Rest(s: Sample, k: nat): string
    requires k < |LABELS|
  {
    Line(LABELS[k..], Values(s)[k..])
  }

  lemma LiteralsAreLabels()
    ensures |LITERALS| == |LABELS| && forall k :: 0 <= k < |LABELS| ==> LITERALS[k] == LABELS[k] + " "
  {
  }

  /** The literals main.c:160-179 passes to UART0_WriteString, in order. */
  lemma LiteralsAt()
    ensures LITERALS[0] == "X: " && LITERALS[1] == "Y: " && LITERALS[2] == "Z: "
    ensures LITERALS[3] == "PSSI: " && LITERALS[4] == "PHI: " && LITERALS[5] == "RHO: "
  {
  }

  lemma FirstRest(s: Sample)
    ensures Rest(s, 0) == RecordLine(s)
  {
    assert LABELS[0..] == LABELS && Values(s)[0..] == Values(s);
  }

  /** Sending field k, with the space after it, leaves the fields after k to send. */
  lemma FieldStep(s: Sample, pre: string, post: string, k: nat)
    requires k + 1 < |LABELS|
    requires post == pre + LITERALS[k] + DecimalText(Values(s)[k]) + " "
    ensures pre + Rest(s, k) == post + Rest(s, k + 1)
  {
    LiteralsAreLabels();
    var d, rest := DecimalText(Values(s)[k]), Rest(s, k + 1);
    assert LABELS[k..][1..] == LABELS[k + 1..] && Values(s)[k..][1..] == Values(s)[k + 1..];
    assert Rest(s, k) == LITERALS[k] + (d + (" " + rest));
    Assoc(pre + LITERALS[k] + d, " ", rest);
    Assoc(pre + LITERALS[k], d, " " + rest);
    Assoc(pre, LITERALS[k], d + (" " + rest));
  }

  /** Sending the last field and '\n' completes the line. */
  lemma LastFieldStep(s: Sample, pre: string, post: string)
    requires post == pre + LITERALS[5] + DecimalText(Values(s)[5]) + "\n"
    ensures pre + Rest(s, 5) == post
  {
    LiteralsAreLabels();
    var d := DecimalText(Values(s)[5]);
    assert Rest(s, 5) == LITERALS[5] + (d + "\n");
    Assoc(pre + LITERALS[5], d, "\n");
    Assoc(pre, LITERALS[5], d + "\n");
  }

  /** One field of main.c:160-179: a label string, an axis value, a separator string. */
  method SendField(uart: Uart0, literal: string, value: int, sep: string)
    requires NUL !in literal && NUL !in sep && -0x7fff_ffff <= value <= 0x7fff_ffff
    modifies uart
    ensures uart.sent == old(uart.sent) + literal + DecimalText(value) + sep
  {
    uart.WriteString(CString(literal));
    uart.WriteInt(value);
    uart.WriteString(CString(sep));
  }

  /** The UART output of main.c:160-179 for sample s. */
  method SendSample(uart: Uart0, s: Sample)
    modifies uart
    ensures uart.sent == old(uart.sent) + RecordLine(s)
  {
    FirstRest(s);
    SendAccel(uart, s);
    SendGyro(uart, s);
  }

  /** main.c:160-168: the three accelerometer fields, each followed by a space. */
  method SendAccel(uart: Uart0, s: Sample)
    modifies uart
    ensures old(uart.sent) + Rest(s, 0) == uart.sent + Rest(s, 3)
  {
    LiteralsAt();
    ghost var pre := uart.sent;
    SendField(uart, "X: ", s.ax, " ");
    FieldStep(s, pre, uart.sent, 0);

    pre := uart.sent;
    SendField(uart, "Y: ", s.ay, " ");
    FieldStep(s, pre, uart.sent, 1);

    pre := uart.sent;
    SendField(uart, "Z: ", s.az, " ");
    FieldStep(s, pre, uart.sent, 2);
  }

  /** main.c:170-179: the three gyroscope fields, the last followed by '\n'. */
  method SendGyro(uart: Uart0, s: Sample)
    modifies uart
    ensures old(uart.sent) + Rest(s, 3) == uart.sent
  {
    LiteralsAt();
    ghost var pre := uart.sent;
    SendField(uart, "PSSI: ", s.gx, " ");
    FieldStep(s, pre, uart.sent, 3);

    pre := uart.sent;
    SendField(uart, "PHI: ", s.gy, " ");
    FieldStep(s, pre, uart.sent, 4);

    pre := uart.sent;
    SendField(uart, "RHO: ", s.gz, "\n");
    LastFieldStep(s, pre, uart.sent);
  }

  /** One pass of main's loop with the sensor's register file `bank`. */
  method LoopBody(uart: Uart0, port: PortF, bank: seq<bv8>) returns (s: Sample)
    requires GYRO_XOUT_H + 5 < |bank|
    modifies uart, port
    ensures s == ReadSample(bank)
    ensures uart.sent == old(uart.sent) + RecordLine(s)
    ensures port.writes == old(port.writes) + LedWrites(s.ax, s.ay, s.az)
    ensures port.data == if Collision(s.ax, s.ay, s.az) then OFF else Orientation(s.ax, s.ay, s.az)
  {
    var accelX := ReadAxis(bank, ACCEL_XOUT_H);
    var accelY := ReadAxis(bank, ACCEL_XOUT_H + 2);
    var accelZ := ReadAxis(bank, ACCEL_XOUT_H + 4);
    var gyroX := ReadAxis(bank, GYRO_XOUT_H);
    var gyroY := ReadAxis(bank, GYRO_XOUT_H + 2);
    var gyroZ := ReadAxis(bank, GYRO_XOUT_H + 4);
    s := Sample(accelX, accelY, accelZ, gyroX, gyroY, gyroZ);
    SendSample(uart, s);
    port.Indicate(accelX, accelY, accelZ);
  }
}
