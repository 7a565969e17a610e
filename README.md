# Collision detector firmware: a Dafny model of its main loop

The firmware runs on a Tiva C (TM4C123) board with an MPU6050 motion sensor.
It loops forever, and each pass does three things:

1. It reads the accelerometer and gyroscope axes over I2C. Each axis is a
   sixteen-bit two's-complement value sent high byte first.
2. It sends the six readings to the PC over UART0 as one text line:
   `X: ax Y: ay Z: az PSSI: gx PHI: gy RHO: gz` and then `'\n'`.
3. It lights the Port F LEDs. Green, red or blue shows the axis that gravity
   lies along. A reading beyond 1.8 g on any axis blinks the LEDs five times.

This project models one such pass in Dafny and proves what the code promises.

- `wrappers.dfy`: `Option`, with the failure-propagation members used by `:-`.
- `numerals.dfy`: the text `UART0_WriteInt` sends for a number (`DecimalText`).
  It also has a strict reader for that text (`ParseDecimal`). The two are
  proved inverse to each other. The text starts with `'-'` exactly for
  negative values; other values carry no sign, and no text has a leading
  zero.
- `uart.dfy`: class `Uart0` with the transmit functions
  `UART0_WriteChar`, `UART0_WriteString` and `UART0_WriteInt`.
  - The data register is modelled as the sequence of every character written to it.
  - `WriteString` walks a NUL-terminated string.
  - `WriteInt` fills a ten-character `array` least significant digit first
    (`BufferDigits`), then sends it back to front (`SendReversed`).
  - Both are proved against `DecimalText`.
- `sensor.dfy`: how `MPU6050_ReadAxis` combines the bytes, as bit-vector
  operations on `bv8`/`bv16`.
  - Its closed form is `hi*256 + lo - (hi >= 0x80 ? 65536 : 0)`.
  - The decoder is proved one-to-one and onto the `int16` range.
  - A pass's six reads come from a register bank given as a parameter.
- `record.dfy`: the line one pass sends (`RecordLine`), and a reference reader
  for it (`ReadRecord`).
  - The reader splits the line on single spaces, checks the six labels and
    reads the six values.
  - Splitting the line's body gives twelve tokens: the labels at even
    positions, the values' text at odd positions.
  - `ReadRecord` accepts a line as a sample exactly when that line is what
    the firmware sends for that sample.
- `led.dfy`: the orientation and collision logic, and class `PortF`.
  - The float thresholds become exact integer comparisons. Lemmas prove they
    agree with the real-number thresholds and give the integer bounds
    13108, 13107, 18022 and 29492.
  - `PortF` records every value written to `GPIO_PORTF_DATA_R`, so the five
    blinks can be observed.
- `firmware.dfy`: one pass of the loop: six reads, the UART line, the LEDs.

## Model

| member | source | states |
|---|---|---|
| `Uart.Uart0.WriteChar` | main.c:47-52 | the character is appended to what UART0 has sent |
| `Uart.Uart0.WriteString` | main.c:54-60 | exactly the characters before the first NUL are appended, in order |
| `Uart.CStringContents` | main.c:54-60 | the characters `WriteString` sends are a prefix of the string with no NUL, ended by the first NUL when one exists |
| `Uart.CString` | main.c:160-179 | a string literal carries its terminator, and `WriteString` sends exactly the literal's characters |
| `Uart.Uart0.WriteInt` | main.c:62-85 | the sent characters grow by exactly `DecimalText(num)` for every C int except INT_MIN |
| `Uart.BufferDigits` | main.c:76-80 | the digits stored in `buffer[0..len)` are those of the magnitude, least significant first; the buffer is written in place and every store is within its ten characters |
| `Uart.Uart0.SendReversed` | main.c:81-84 | the buffered characters are sent from `buffer[len-1]` down to `buffer[0]` |
| `Uart.SignedText` | main.c:71-75 | after the `'-'` for a negative value, the magnitude's digits complete the decimal text and fit in ten characters |
| `Numerals.DecimalText` | main.c:62-85 | the text sent for num is never empty, and its first character is `'-'` exactly when num is negative |
| `Numerals.DigitsIsNumeral` | main.c:76-84 | the digits of a positive magnitude are all decimal digits and the first is not `'0'` |
| `Numerals.DecimalSign` | main.c:64-75 | only zero is sent as `"0"`; the text starts with `'-'` exactly for negative values, and then it is `'-'` followed by the text of the magnitude |
| `Numerals.DigitsCount` | main.c:76-84 | the number of digits sent for a positive n is its number of decimal digits: `10^(k-1) <= n < 10^k` |
| `Numerals.DigitsFitBuffer` | main.c:69-80 | every magnitude up to 2^31-1 has at most ten digits |
| `Numerals.DigitsValueOfDigits` | main.c:76-84 | reading the sent digits back gives the magnitude |
| `Numerals.DecimalRoundTrip` | main.c:62-85 | parsing the text sent for num gives num |
| `Numerals.ParseDecimalCanonical` | main.c:62-85 | any text the reader accepts as num is exactly the text sent for num |
| `Numerals.DecimalBijection` | main.c:62-85 | the reader accepts s as num if and only if s is the text sent for num |
| `Sensor.WordValue` | main.c:123-127 | the sixteen-bit word of hi shifted left by 8, OR-ed with lo, has the value `hi*256 + lo` |
| `Sensor.AxisFromBytes` | main.c:123-127 | the int16 built from the bytes is `hi*256 + lo`, minus 65536 when the high bit of hi is set, and lies in [-32768, 32767] |
| `Sensor.UnsignedOfAxis` | main.c:123-127 | the sixteen-bit pattern of the decoded value is `hi*256 + lo` |
| `Sensor.AxisInjective` | main.c:123-127 | two different byte pairs never decode to the same value |
| `Sensor.AxisOnto` | main.c:123-127 | every int16 value is the decoding of some byte pair |
| `Sensor.ReadAxis` | main.c:111-129 | the value is `bank[reg]*256 + bank[reg+1]`, minus 65536 when the top bit of `bank[reg]` is set; so its sign is that bit and its low byte is `bank[reg+1]` |
| `Sensor.ReadSample` | main.c:150-157 | the accelerometer axes decode registers 0x3B-0x40 and the gyroscope axes 0x43-0x48, two per axis, high byte first |
| `Record.RecordLine` | main.c:160-179 | the line for s is its twelve tokens joined by single spaces, then `'\n'` |
| `Record.InterleaveAt` | main.c:160-179 | token 2k of the line's body is label k, and token 2k+1 is the decimal text of value k |
| `Record.RecordLineShape` | main.c:160-179 | the line ends in its only `'\n'`, and its body is the twelve tokens joined by single spaces |
| `Record.NoSpaceInTokens` | main.c:160-179 | no token contains a space or a newline |
| `Record.RecordTokens` | main.c:160-179 | splitting the line's body on single spaces gives exactly the twelve tokens |
| `Record.TokensAt` | main.c:160-179 | tokens 0,2,…,10 are `X:`,`Y:`,`Z:`,`PSSI:`,`PHI:`,`RHO:`, and tokens 1,3,…,11 are the text of ax, ay, az, gx, gy, gz |
| `Record.ReadInt16OfValue` | main.c:161-178 | each value's token reads back as that int16 |
| `Record.RecordRoundTrip` | main.c:160-179 | reading the line sent for a sample gives back that sample |
| `Record.ReadRecordSound` | main.c:160-179 | a line read as sample s is exactly the line sent for s |
| `Record.ReadRecordExact` | main.c:160-179 | a line is read as s if and only if it is the line the firmware sends for s |
| `Led.Orientation` | main.c:181-192 | the colour is one of 0x08, 0x02, 0x04 or 0x00; it is green, red or blue exactly when gravity lies along x, y or z and the other two axes are low |
| `Led.Collision` | main.c:193 | a collision is reported exactly when some accelerometer axis has magnitude 29492 or more (beyond 0.15·12·G = 1.8 g) |
| `Led.ThresholdBounds` | main.c:181-193 | the scaled tests are exactly abs(a) >= 13108, abs(a) <= 13107, abs(a) <= 18022 and abs(a) >= 29492 |
| `Led.ThresholdsExact` | main.c:181-193 | the scaled tests agree with the comparisons against 0.8·G, 1.1·G and 0.15·12·G taken as exact reals |
| `Led.AlongExclusive` | main.c:181-192 | no two colour conditions hold together, so testing them in reverse order gives the same colour |
| `Led.CollisionHasNoOrientation` | main.c:181-193 | on a collision the colour is always 0x00 |
| `Led.BlinksAt` | main.c:195-200 | the blink writes alternate 0x06 and 0x00, starting with 0x06 |
| `Led.CountBlinks` | main.c:195-200 | n blink pairs write 0x06 n times and 0x00 n times |
| `Led.LedWrites` | main.c:181-201 | the first write of a pass is its orientation colour; there are eleven writes exactly on a collision and one write exactly otherwise |
| `Led.LedWritesShape` | main.c:181-201 | one pass first writes its colour. On a collision it then writes exactly eleven values in all, 0x06 five times, ending with 0x00; without a collision it writes nothing more |
| `Led.PortF.Write` | main.c:183 | the data register holds the value, and the value is added to the write history |
| `Led.PortF.ShowOrientation` | main.c:181-192 | the if-chain writes the orientation colour once and leaves it in the register |
| `Led.PortF.BlinkCollision` | main.c:195-200 | the loop appends five 0x06/0x00 pairs and leaves 0x00 |
| `Led.PortF.Indicate` | main.c:181-201 | the writes of one pass are the colour, then the blinks on a collision (some axis at 29492 or more); the register ends at 0x00 after a collision, otherwise at the colour |
| `Firmware.SendField` | main.c:160-162 | a label, a value and a separator are sent as the label, the value's decimal text and the separator |
| `Firmware.SendAccel` | main.c:160-168 | the three accelerometer fields are the first half of the record line |
| `Firmware.SendGyro` | main.c:171-179 | the three gyroscope fields complete the record line |
| `Firmware.SendSample` | main.c:160-179 | UART0 receives exactly `RecordLine(s)` |
| `Firmware.LoopBody` | main.c:150-201 | one pass reads the sample the register bank holds, sends its line, and leaves the LED writes and register that `Indicate` states |

## Left out

- `I2C_Init`, `UART0_Init`, `PortF_Init` and `MPU6050_Init` (main.c:11-45, 87-109) are register set-up with no computation to model.
- The I2C transaction around each read (main.c:114-126) is not modelled. The sensor's register file is a parameter `bank`; a read yields the bytes at `reg` and `reg + 1`.
- `bank` is one fixed snapshot for the whole pass. In the firmware the six reads are separate I2C transactions, and the sensor may update its registers between them, so a pass can mix samples taken at different instants; the model does not capture that.
- Converting `I2C0_MDR_R << 8` to `int16_t` (main.c:123) is implementation-defined in C when the high byte is 0x80 or more (the shifted value is 32768 or more). The model takes it as reduction modulo 2^16, which is how GCC defines it.
- The busy-waits on `UART0_FR_R` and `I2C0_MCS_R` are not modelled. Neither is `Delay` (main.c:131-136) or the `Delay` calls in the loop, since they only take time.
- The endless `while (1)` loop (main.c:147-203) is modelled as one pass, `Firmware.LoopBody`.
- The float thresholds are not modelled as doubles. Each is compared with an integer magnitude, so the model uses exact scaled integer comparisons (`10*|a| > 8*16384`, and so on). `Led.ThresholdsExact` shows these agree with the exact real values; rounding of the doubles `0.8`, `1.1` and `0.15` is not modelled.
- `Uart.Uart0.WriteInt` requires `num` to be a C `int` other than INT_MIN, for which `-num` is undefined behaviour in C. Every call passes an `int16_t`.
- `THRESHOLD` (main.c:7) is never used by the code and is not modelled.
- `PC_interface.py` is port enumeration, a blocking read/print loop and console prompts. It is not modelled. `Record.ReadRecord` is a reference reader for the line format, not a model of that script.
- `Led.PortF` keeps its write history as a ghost field. The hardware only holds the last value, which the model keeps in `data`.
