/** The canned outputs of the commands of ndi-app/src/lib/terminal.ts, character for character. */
module TerminalTexts {

  /** The text of `help`. */
  const HelpText: string :=
    "\n\U{1B}[1mAvailable commands:\U{1B}[0m\n\n  \U{1B}[32mls\U{1B}[0m [path]        List directory contents\n  \U{1B}[32mcd\U{1B}[0m <path>        Change directory\n  \U{1B}[32mpwd\U{1B}[0m              Print working directory\n  \U{1B}[32mcat\U{1B}[0m <file>       Display file contents\n  \U{1B}[32mecho\U{1B}[0m <text>      Display text\n  \U{1B}[32mmkdir\U{1B}[0m <dir>      Create directory\n  \U{1B}[32mtouch\U{1B}[0m <file>     Create empty file\n  \U{1B}[32mrm\U{1B}[0m <file>        Remove file (use -r for directories)\n  \U{1B}[32mclear\U{1B}[0m            Clear the terminal\n  \U{1B}[32mwhoami\U{1B}[0m           Display current user\n  \U{1B}[32mdate\U{1B}[0m             Display current date\n  \U{1B}[32muname\U{1B}[0m [-a]       Display system information\n  \U{1B}[32mneofetch\U{1B}[0m         Display system info with ASCII art\n  \U{1B}[32mcowsay\U{1B}[0m <text>    Make a cow say something\n  \U{1B}[32mhistory\U{1B}[0m          Show command history\n  \U{1B}[32mexit\U{1B}[0m             Close terminal (doesn\'t work here \U{1F609})\n\n\U{1B}[33mTip:\U{1B}[0m Use Tab for auto-completion, \U{2191}/\U{2193} for history\n"

  /** The text of `neofetch`. */
  const NeofetchText: string :=
    "\n\U{1B}[31m            .-/+oossssoo+/-.\U{1B}[0m               \U{1B}[1muser\U{1B}[0m@\U{1B}[1mubuntu-simulator\U{1B}[0m\n\U{1B}[31m        `:+ssssssssssssssssss+:`\U{1B}[0m           -------------------------\n\U{1B}[31m      -+ssssssssssssssssssyyssss+-\U{1B}[0m         \U{1B}[1mOS:\U{1B}[0m Ubuntu 24.04 LTS x86_64\n\U{1B}[31m    .ossssssssssssssssss\U{1B}[37mdMMMNy\U{1B}[31msssso.\U{1B}[0m       \U{1B}[1mHost:\U{1B}[0m Ubuntu Simulator\n\U{1B}[31m   /sssssssssss\U{1B}[37mhdmmNNmmyNMMMMh\U{1B}[31mssssss/\U{1B}[0m      \U{1B}[1mKernel:\U{1B}[0m 6.5.0-virtual\n\U{1B}[31m  +sssssssss\U{1B}[37mhm\U{1B}[31myd\U{1B}[37mMMMMMMMNddddy\U{1B}[31mssssssss+\U{1B}[0m     \U{1B}[1mUptime:\U{1B}[0m just now\n\U{1B}[31m /ssssssss\U{1B}[37mhNMMM\U{1B}[31myh\U{1B}[37mhyyyyhmNMMMNh\U{1B}[31mssssssss/\U{1B}[0m    \U{1B}[1mPackages:\U{1B}[0m 1337 (apt)\n\U{1B}[31m.ssssssss\U{1B}[37mdMMMNh\U{1B}[31mssssssssss\U{1B}[37mhNMMMd\U{1B}[31mssssssss.\U{1B}[0m   \U{1B}[1mShell:\U{1B}[0m bash 5.1.16\n\U{1B}[31m+ssss\U{1B}[37mhhhyNMMNy\U{1B}[31mssssssssssss\U{1B}[37myNMMMy\U{1B}[31msssssss+\U{1B}[0m   \U{1B}[1mResolution:\U{1B}[0m 1920x1080\n\U{1B}[31moss\U{1B}[37myNMMMNyMMh\U{1B}[31mssssssssssssss\U{1B}[37mhmmmh\U{1B}[31mssssssso\U{1B}[0m   \U{1B}[1mDE:\U{1B}[0m GNOME 46\n\U{1B}[31moss\U{1B}[37myNMMMNyMMh\U{1B}[31msssssssssssssshmmmh\U{1B}[31mssssssso\U{1B}[0m   \U{1B}[1mWM:\U{1B}[0m Mutter\n\U{1B}[31m+ssss\U{1B}[37mhhhyNMMNy\U{1B}[31mssssssssssss\U{1B}[37myNMMMy\U{1B}[31msssssss+\U{1B}[0m   \U{1B}[1mTheme:\U{1B}[0m Yaru [GTK3]\n\U{1B}[31m.ssssssss\U{1B}[37mdMMMNh\U{1B}[31mssssssssss\U{1B}[37mhNMMMd\U{1B}[31mssssssss.\U{1B}[0m   \U{1B}[1mTerminal:\U{1B}[0m Ubuntu Simulator\n\U{1B}[31m /ssssssss\U{1B}[37mhNMMM\U{1B}[31myh\U{1B}[37mhyyyyhdNMMMNh\U{1B}[31mssssssss/\U{1B}[0m    \U{1B}[1mCPU:\U{1B}[0m Virtual x86_64\n\U{1B}[31m  +sssssssss\U{1B}[37mdm\U{1B}[31myd\U{1B}[37mMMMMMMMMddddy\U{1B}[31mssssssss+\U{1B}[0m     \U{1B}[1mMemory:\U{1B}[0m 420MB / 8192MB\n\U{1B}[31m   /sssssssssss\U{1B}[37mhdmNNNNmyNMMMMh\U{1B}[31mssssss/\U{1B}[0m\n\U{1B}[31m    .ossssssssssssssssss\U{1B}[37mdMMMNy\U{1B}[31msssso.\U{1B}[0m\n\U{1B}[31m      -+sssssssssssssssss\U{1B}[37myyy\U{1B}[31mssss+-\U{1B}[0m\n\U{1B}[31m        `:+ssssssssssssssssss+:`\U{1B}[0m\n\U{1B}[31m            .-/+oossssoo+/-.\U{1B}[0m\n"

  /** What `sudo rm -rf /` answers. */
  const SudoRefusal: string :=
    "\U{1B}[31mNice try! \U{1F608}\U{1B}[0m\n\nYou don\'t have permission to destroy the universe.\nMaybe try something less destructive?"

  /** What every other `sudo` answers. */
  const SudoAnswer: string :=
    "\U{1B}[33m[sudo] password for user:\U{1B}[0m\nSorry, this is a simulation. You don\'t need sudo here! \U{1F3AE}"

  /** What `exit` answers. */
  const ExitText: string :=
    "\U{1B}[33mYou can\'t escape that easily! \U{1F604}\U{1B}[0m\n\nThis is a web-based terminal simulator.\nClose the window if you want to exit."

  /** `df -h`. */
  const DfHuman: string :=
    "Filesystem      Size  Used Avail Use% Mounted on\n/dev/sda1        50G   15G   35G  30% /\ntmpfs           4.0G     0  4.0G   0% /dev/shm\n/dev/sda2       100G   20G   80G  20% /home"

  /** `df`. */
  const DfBlocks: string :=
    "Filesystem     1K-blocks     Used Available Use% Mounted on\n/dev/sda1       52428800 15728640  36700160  30% /\ntmpfs            4194304        0   4194304   0% /dev/shm\n/dev/sda2      104857600 20971520  83886080  20% /home"

  /** `free -h`. */
  const FreeHuman: string :=
    "              total        used        free      shared  buff/cache   available\nMem:          7.8Gi       420Mi       6.5Gi       1.0Mi       900Mi       7.1Gi\nSwap:         2.0Gi          0B       2.0Gi"

  /** `free`. */
  const FreeKilobytes: string :=
    "              total        used        free      shared  buff/cache   available\nMem:        8192000      430080     6815744        1024      921600     7270400\nSwap:       2097152           0     2097152"

  /** `top`. */
  const TopText: string :=
    "\U{1B}[33mInteractive mode not supported.\U{1B}[0m\nTry \'ps\' for a static process list."

  /** `ps`. */
  const PsText: string :=
    "  PID TTY          TIME CMD\n    1 pts/0    00:00:00 bash\n  100 pts/0    00:00:00 ubuntu-sim\n  101 pts/0    00:00:00 ps"

  /** The cow drawn under the speech bubble of `cowsay`. */
  const CowArt: string :=
    "        \\   ^__^\n         \\  (oo)\\_______\n            (__)\\       )\\/\\\n                ||----w |\n                ||     ||\n"
}
